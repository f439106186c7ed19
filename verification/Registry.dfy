/** The dynamic command registry: a list of entries from several sources that
    refines a map keyed by name and source, with shadowing by source priority
    (`dynamic_registry.rs`). */
module Registry {
  import opened Wrappers

  datatype Source = Builtin | User | Project | Plugin | Skill
  {
    function Priority(): nat {
      match this
      case Builtin => 100
      case User => 80
      case Project => 60
      case Plugin => 40
      case Skill => 20
    }
  }

  datatype Strategy = Inline | SkillRun | Fork | PluginRun | Mcp(serverName: string)

  datatype Entry = Entry(
    name: string,
    aliases: seq<string>,
    description: string,
    source: Source,
    pluginId: Option<string>,
    hidden: bool,
    usageScore: real,
    strategy: Strategy)
  {
    function Key(): (string, Source) { (name, source) }

    predicate Answers(query: string) { name == query || query in aliases }
  }

  type KeyedMap = map<(string, Source), Entry>

  // ------------------------------------------------------------- specification

  function KeyIndex(cs: seq<Entry>, key: (string, Source)): (i: nat)
    ensures i <= |cs|
    ensures i < |cs| ==> cs[i].Key() == key
    ensures forall j :: 0 <= j < i ==> cs[j].Key() != key
  {
    KeyIndexFrom(cs, key, 0)
  }

  function KeyIndexFrom(cs: seq<Entry>, key: (string, Source), from: nat): (i: nat)
    requires from <= |cs|
    ensures from <= i <= |cs|
    ensures i < |cs| ==> cs[i].Key() == key
    ensures forall j :: from <= j < i ==> cs[j].Key() != key
    decreases |cs| - from
  {
    if from == |cs| || cs[from].Key() == key then from else KeyIndexFrom(cs, key, from + 1)
  }

  // The list without its first entry under `key`.
  function Without(cs: seq<Entry>, key: (string, Source)): seq<Entry> {
    var i := KeyIndex(cs, key);
    if i == |cs| then cs else cs[..i] + cs[i + 1..]
  }

  function Used(e: Entry, name: string): Entry {
    if e.name != name then e
    else e.(usageScore := if e.usageScore + 0.1 < 1.0 then e.usageScore + 0.1 else 1.0)
  }

  function AllUsed(cs: seq<Entry>, name: string): seq<Entry> {
    seq(|cs|, i requires 0 <= i < |cs| => Used(cs[i], name))
  }

  ghost predicate UniqueKeys(cs: seq<Entry>) {
    forall i, j :: 0 <= i < j < |cs| ==> cs[i].Key() != cs[j].Key()
  }

  // The list holds exactly the entries of the map, each once.
  ghost predicate Refines(cs: seq<Entry>, m: KeyedMap) {
    && UniqueKeys(cs)
    && (forall i :: 0 <= i < |cs| ==> cs[i].Key() in m && m[cs[i].Key()] == cs[i])
    && (forall k :: k in m ==> KeyIndex(cs, k) < |cs|)
  }

  datatype Op =
    | Register(entry: Entry)
    | Unregister(name: string, source: Source)
    | RecordUsage(name: string)

  function Applied(cs: seq<Entry>, op: Op): seq<Entry> {
    match op
    case Register(e) => Without(cs, e.Key()) + [e]
    case Unregister(name, source) => Without(cs, (name, source))
    case RecordUsage(name) => AllUsed(cs, name)
  }

  // The reference: the same operations on a keyed map.
  ghost function MapApplied(m: KeyedMap, op: Op): KeyedMap {
    match op
    case Register(e) => m[e.Key() := e]
    case Unregister(name, source) => m - {(name, source)}
    case RecordUsage(name) => map k | k in m :: Used(m[k], name)
  }

  ghost function Run(cs: seq<Entry>, ops: seq<Op>): seq<Entry> {
    if ops == [] then cs else Applied(Run(cs, ops[..|ops| - 1]), ops[|ops| - 1])
  }

  ghost function MapRun(m: KeyedMap, ops: seq<Op>): KeyedMap {
    if ops == [] then m else MapApplied(MapRun(m, ops[..|ops| - 1]), ops[|ops| - 1])
  }

  // Registering a list of entries, and which of them replaced something.
  ghost function AllRegistered(cs: seq<Entry>, batch: seq<Entry>): seq<Entry> {
    if batch == [] then cs else Applied(AllRegistered(cs, batch[..|batch| - 1]), Register(batch[|batch| - 1]))
  }

  ghost function AllPut(m: KeyedMap, batch: seq<Entry>): KeyedMap {
    if batch == [] then m
    else var last := batch[|batch| - 1]; AllPut(m, batch[..|batch| - 1])[last.Key() := last]
  }

  ghost function ReplacedBy(m: KeyedMap, batch: seq<Entry>): seq<Entry> {
    if batch == [] then []
    else
      var front, last := batch[..|batch| - 1], batch[|batch| - 1];
      ReplacedBy(m, front) + (if last.Key() in AllPut(m, front) then [AllPut(m, front)[last.Key()]] else [])
  }

  lemma BatchOneMore(cs: seq<Entry>, m: KeyedMap, batch: seq<Entry>, i: nat)
    requires i < |batch|
    ensures var put := AllPut(m, batch[..i]);
      && AllRegistered(cs, batch[..i + 1]) == Applied(AllRegistered(cs, batch[..i]), Register(batch[i]))
      && AllPut(m, batch[..i + 1]) == put[batch[i].Key() := batch[i]]
      && ReplacedBy(m, batch[..i + 1]) ==
        ReplacedBy(m, batch[..i]) + (if batch[i].Key() in put then [put[batch[i].Key()]] else [])
  {
    assert batch[..i + 1][..i] == batch[..i];
  }

  // ---------------------------------------------------------------- refinement

  lemma WithoutIsOthers(cs: seq<Entry>, i: nat)
    requires UniqueKeys(cs) && i < |cs|
    ensures KeyIndex(cs, cs[i].Key()) == i
    ensures Without(cs, cs[i].Key()) == cs[..i] + cs[i + 1..]
  {
    assert KeyIndex(cs, cs[i].Key()) <= i;
  }

  lemma WithoutAt(cs: seq<Entry>, key: (string, Source), j: nat)
    requires UniqueKeys(cs) && j < |Without(cs, key)|
    ensures var at := KeyIndex(cs, key);
      && Shifted(at, j) < |cs| && Without(cs, key)[j] == cs[Shifted(at, j)]
      && Shifted(at, j) != at && Without(cs, key)[j].Key() != key
  {
  }

  lemma WithoutKeepsUnique(cs: seq<Entry>, key: (string, Source))
    requires UniqueKeys(cs)
    ensures UniqueKeys(Without(cs, key))
  {
    var rest := Without(cs, key);
    forall i, j | 0 <= i < j < |rest| ensures rest[i].Key() != rest[j].Key() {
      WithoutAt(cs, key, i);
      WithoutAt(cs, key, j);
    }
  }

  lemma WithoutKeepsOthers(cs: seq<Entry>, key: (string, Source), k: (string, Source))
    requires KeyIndex(cs, k) < |cs| && k != key
    ensures KeyIndex(Without(cs, key), k) < |Without(cs, key)|
  {
    var at, j := KeyIndex(cs, key), KeyIndex(cs, k);
    assert Without(cs, key)[if j < at then j else j - 1].Key() == k;
  }

  lemma WithoutRefines(cs: seq<Entry>, m: KeyedMap, key: (string, Source))
    requires Refines(cs, m)
    ensures Refines(Without(cs, key), m - {key})
  {
    var rest := Without(cs, key);
    WithoutKeepsUnique(cs, key);
    forall j | 0 <= j < |rest| ensures rest[j].Key() in m - {key} && (m - {key})[rest[j].Key()] == rest[j] {
      WithoutAt(cs, key, j);
    }
    forall k | k in m - {key} ensures KeyIndex(rest, k) < |rest| {
      WithoutKeepsOthers(cs, key, k);
    }
  }

  function Lookup(cs: seq<Entry>, key: (string, Source)): Option<Entry> {
    if KeyIndex(cs, key) < |cs| then Some(cs[KeyIndex(cs, key)]) else None
  }

  // Searching the list answers as the map does.
  lemma LookupAgrees(cs: seq<Entry>, m: KeyedMap, key: (string, Source))
    requires Refines(cs, m)
    ensures Lookup(cs, key) == if key in m then Some(m[key]) else None
  {
  }

  lemma AppendRefines(cs: seq<Entry>, m: KeyedMap, e: Entry)
    requires Refines(cs, m) && e.Key() !in m
    ensures Refines(cs + [e], m[e.Key() := e])
  {
    var after := cs + [e];
    forall k | k in m[e.Key() := e] ensures KeyIndex(after, k) < |after| {
      if k == e.Key() {
        assert after[|cs|].Key() == k;
      } else {
        assert after[KeyIndex(cs, k)].Key() == k;
      }
    }
  }

  lemma UsedRefines(cs: seq<Entry>, m: KeyedMap, name: string)
    requires Refines(cs, m)
    ensures Refines(AllUsed(cs, name), MapApplied(m, RecordUsage(name)))
  {
    var after := AllUsed(cs, name);
    assert forall i :: 0 <= i < |cs| ==> after[i].Key() == cs[i].Key();
    forall k | k in m ensures KeyIndex(after, k) < |after| {
      assert after[KeyIndex(cs, k)].Key() == k;
    }
  }

  lemma RegisteredRefines(cs: seq<Entry>, m: KeyedMap, e: Entry)
    requires Refines(cs, m)
    ensures Refines(Without(cs, e.Key()) + [e], m[e.Key() := e])
  {
    WithoutRefines(cs, m, e.Key());
    AppendRefines(Without(cs, e.Key()), m - {e.Key()}, e);
    assert (m - {e.Key()})[e.Key() := e] == m[e.Key() := e];
  }

  lemma AppliedRefines(cs: seq<Entry>, m: KeyedMap, op: Op)
    requires Refines(cs, m)
    ensures Refines(Applied(cs, op), MapApplied(m, op))
  {
    match op {
      case Register(e) => RegisteredRefines(cs, m, e);
      case Unregister(name, source) => WithoutRefines(cs, m, (name, source));
      case RecordUsage(name) => UsedRefines(cs, m, name);
    }
  }

  // Whatever operations are run, no name and source pair is listed twice and the
  // list holds what a map keyed by that pair would.
  lemma {:induction false} RunRefinesMap(ops: seq<Op>)
    ensures Refines(Run([], ops), MapRun(map[], ops))
  {
    if ops != [] {
      RunRefinesMap(ops[..|ops| - 1]);
      AppliedRefines(Run([], ops[..|ops| - 1]), MapRun(map[], ops[..|ops| - 1]), ops[|ops| - 1]);
    }
  }

  // -------------------------------------------------------------------- lookup

  // Entry `i` is what `query` finds: nothing that answers outranks it, and no
  // earlier one equals it in priority.
  ghost predicate IsBest(cs: seq<Entry>, query: string, i: nat) {
    && i < |cs| && cs[i].Answers(query)
    && forall j :: 0 <= j < |cs| && cs[j].Answers(query) ==>
      cs[j].source.Priority() < cs[i].source.Priority()
      || (cs[j].source.Priority() == cs[i].source.Priority() && i <= j)
  }

  ghost predicate Finds(cs: seq<Entry>, query: string, found: Option<Entry>) {
    match found
    case None => forall j :: 0 <= j < |cs| ==> !cs[j].Answers(query)
    case Some(e) => exists i: nat :: IsBest(cs, query, i) && cs[i] == e
  }

  lemma FindsOnce(cs: seq<Entry>, query: string, a: Option<Entry>, b: Option<Entry>)
    requires Finds(cs, query, a) && Finds(cs, query, b)
    ensures a == b
  {
  }

  // The position in the list of the k-th of the entries other than the i-th.
  ghost function Shifted(i: nat, k: nat): nat { if k < i then k else k + 1 }

  // Unregistering the winner reveals the best of the rest: what is then found
  // was listed before, is not the winner, and was beaten by the winner alone.
  lemma UnregisterReveals(cs: seq<Entry>, query: string, i: nat, k: nat)
    requires UniqueKeys(cs) && IsBest(cs, query, i)
    requires IsBest(Applied(cs, Unregister(cs[i].name, cs[i].source)), query, k)
    ensures var w := Shifted(i, k);
      && w < |cs| && w != i && cs[w].Answers(query)
      && Applied(cs, Unregister(cs[i].name, cs[i].source))[k] == cs[w]
      && forall j :: 0 <= j < |cs| && j != i && cs[j].Answers(query) ==>
        cs[j].source.Priority() < cs[w].source.Priority()
        || (cs[j].source.Priority() == cs[w].source.Priority() && w <= j)
  {
    WithoutIsOthers(cs, i);
    var rest, w := Without(cs, cs[i].Key()), Shifted(i, k);
    assert cs[i].Key() == (cs[i].name, cs[i].source);
    forall j | 0 <= j < |cs| && j != i && cs[j].Answers(query)
      ensures cs[j].source.Priority() < cs[w].source.Priority()
        || (cs[j].source.Priority() == cs[w].source.Priority() && w <= j)
    {
      assert cs[j] == rest[if j < i then j else j - 1];
    }
  }

  // Unregistering anything else leaves the winner in place.
  lemma UnregisterOther(cs: seq<Entry>, query: string, i: nat, key: (string, Source))
    requires UniqueKeys(cs) && IsBest(cs, query, i) && cs[i].Key() != key
    ensures Finds(Without(cs, key), query, Some(cs[i]))
  {
    var at, rest := KeyIndex(cs, key), Without(cs, key);
    var k := if i < at then i else i - 1;
    assert forall j :: 0 <= j < |rest| ==> rest[j] == cs[Shifted(at, j)];
    assert IsBest(rest, query, k);
  }

  // A registration of lower priority never takes a query away from its winner,
  // whatever names and aliases it claims.
  lemma LowerPriorityCannotShadow(cs: seq<Entry>, query: string, i: nat, e: Entry)
    requires UniqueKeys(cs) && IsBest(cs, query, i) && e.source.Priority() < cs[i].source.Priority()
    ensures Finds(Applied(cs, Register(e)), query, Some(cs[i]))
  {
    var rest := Without(cs, e.Key());
    UnregisterOther(cs, query, i, e.Key());
    var k: nat :| IsBest(rest, query, k) && rest[k] == cs[i];
    assert IsBest(rest + [e], query, k);
  }

  // ------------------------------------------------------------------ listings

  // Entry `a` must come before `b`: higher priority, or the same and used more.
  predicate Before(a: Entry, b: Entry) {
    a.source.Priority() > b.source.Priority()
    || (a.source.Priority() == b.source.Priority() && a.usageScore > b.usageScore)
  }

  predicate Tied(a: Entry, b: Entry) { !Before(a, b) && !Before(b, a) }

  ghost predicate Sorted(cs: seq<Entry>) {
    forall i, j :: 0 <= i < j < |cs| ==> !Before(cs[j], cs[i])
  }

  function TiedWith(cs: seq<Entry>, e: Entry): seq<Entry> {
    if cs == [] then [] else (if Tied(cs[0], e) then [cs[0]] else []) + TiedWith(cs[1..], e)
  }

  // What a stable sort promises: sorted, and tied entries in their old order.
  // Every entry is tied with itself, so this also fixes the contents.
  ghost predicate StableSortOf(sorted: seq<Entry>, cs: seq<Entry>) {
    Sorted(sorted) && forall e :: TiedWith(sorted, e) == TiedWith(cs, e)
  }

  function Inserted(e: Entry, cs: seq<Entry>): seq<Entry> {
    if cs == [] || !Before(cs[0], e) then [e] + cs else [cs[0]] + Inserted(e, cs[1..])
  }

  function StableSort(cs: seq<Entry>): seq<Entry> {
    if cs == [] then [] else Inserted(cs[0], StableSort(cs[1..]))
  }

  lemma {:induction false} InsertedMembers(e: Entry, cs: seq<Entry>)
    ensures multiset(Inserted(e, cs)) == multiset(cs) + multiset{e}
  {
    if cs == [] || !Before(cs[0], e) {
    } else {
      InsertedMembers(e, cs[1..]);
      assert cs == [cs[0]] + cs[1..];
    }
  }

  lemma {:induction false} InsertedSorted(e: Entry, cs: seq<Entry>)
    requires Sorted(cs)
    ensures Sorted(Inserted(e, cs))
  {
    if cs == [] || !Before(cs[0], e) {
    } else {
      var rest := Inserted(e, cs[1..]);
      InsertedSorted(e, cs[1..]);
      InsertedMembers(e, cs[1..]);
      forall j | 0 <= j < |rest| ensures !Before(rest[j], cs[0]) {
        assert rest[j] in multiset(rest);
        if rest[j] != e {
          assert rest[j] in cs[1..];
        }
      }
    }
  }

  lemma {:induction false} InsertedStable(e: Entry, cs: seq<Entry>, x: Entry)
    ensures TiedWith(Inserted(e, cs), x) == TiedWith([e] + cs, x)
  {
    if cs == [] || !Before(cs[0], e) {
    } else {
      InsertedStable(e, cs[1..], x);
      assert ([e] + cs)[1..] == cs && ([e] + cs[1..])[1..] == cs[1..];
    }
  }

  lemma {:induction false} SortIsStable(cs: seq<Entry>)
    ensures StableSortOf(StableSort(cs), cs) && multiset(StableSort(cs)) == multiset(cs)
  {
    if cs != [] {
      var rest := StableSort(cs[1..]);
      SortIsStable(cs[1..]);
      InsertedSorted(cs[0], rest);
      InsertedMembers(cs[0], rest);
      assert cs == [cs[0]] + cs[1..];
      forall e ensures TiedWith(StableSort(cs), e) == TiedWith(cs, e) {
        InsertedStable(cs[0], rest, e);
        assert ([cs[0]] + rest)[1..] == rest;
      }
    }
  }

  lemma {:induction false} TiedWithMembers(cs: seq<Entry>, e: Entry, i: nat)
    requires i < |cs| && Tied(cs[i], e)
    ensures cs[i] in TiedWith(cs, e)
  {
    if i > 0 { TiedWithMembers(cs[1..], e, i - 1); }
  }

  lemma {:induction false} TiedWithOnly(cs: seq<Entry>, e: Entry, x: Entry)
    requires x in TiedWith(cs, e)
    ensures x in cs && Tied(x, e)
  {
    if cs != [] && !(Tied(cs[0], e) && cs[0] == x) {
      TiedWithOnly(cs[1..], e, x);
    }
  }

  // The two promises determine the listing: the standard library's stable sort,
  // whatever its algorithm, returns this one.
  lemma {:induction false} StableSortUnique(a: seq<Entry>, b: seq<Entry>)
    requires Sorted(a) && Sorted(b) && forall e :: TiedWith(a, e) == TiedWith(b, e)
    ensures a == b
  {
    if a == [] {
      if b != [] { TiedWithMembers(b, b[0], 0); }
    } else if b == [] {
      TiedWithMembers(a, a[0], 0);
    } else {
      HeadsEqual(a, b);
      forall e ensures TiedWith(a[1..], e) == TiedWith(b[1..], e) {
        assert TiedWith(a, e) == TiedWith(b, e);
        var head := if Tied(a[0], e) then [a[0]] else [];
        assert TiedWith(a[1..], e) == TiedWith(a, e)[|head|..];
        assert TiedWith(b[1..], e) == TiedWith(b, e)[|head|..];
      }
      StableSortUnique(a[1..], b[1..]);
    }
  }

  lemma HeadsEqual(a: seq<Entry>, b: seq<Entry>)
    requires a != [] && b != [] && Sorted(a) && Sorted(b) && forall e :: TiedWith(a, e) == TiedWith(b, e)
    ensures a[0] == b[0]
  {
    TiedWithMembers(a, a[0], 0);
    TiedWithMembers(b, b[0], 0);
    TiedWithOnly(b, a[0], a[0]);
    TiedWithOnly(a, b[0], b[0]);
    assert Tied(a[0], b[0]);
    assert TiedWith(a, a[0])[0] == a[0];
    assert TiedWith(b, a[0])[0] == b[0];
  }

  function Visible(cs: seq<Entry>): seq<Entry> {
    if cs == [] then []
    else Visible(cs[..|cs| - 1]) + (if cs[|cs| - 1].hidden then [] else [cs[|cs| - 1]])
  }

  // ------------------------------------------------------------------- machine

  const REVISIONS: nat := 0x1_0000_0000_0000_0000

  // `wrapping_add(1)`
  function NextRevision(revision: nat): nat { if revision + 1 == REVISIONS then 0 else revision + 1 }

  ghost function RevisionAfter(revision: nat, registrations: nat): nat {
    if registrations == 0 then revision else NextRevision(RevisionAfter(revision, registrations - 1))
  }

  // Revisions count registrations, up to wrap-around.
  lemma {:induction false} RevisionsCounted(revision: nat, registrations: nat)
    requires revision < REVISIONS
    ensures RevisionAfter(revision, registrations) == (revision + registrations) % REVISIONS
  {
    if registrations != 0 {
      RevisionsCounted(revision, registrations - 1);
    }
  }

  /** The registry object. */
  class DynamicRegistry {
    var commands: seq<Entry>
    var revision: nat

    ghost var entries: KeyedMap

    ghost predicate Valid()
      reads this
    {
      Refines(commands, entries) && revision < REVISIONS
    }

    constructor ()
      ensures Valid() && commands == [] && entries == map[] && revision == 0
    {
      commands, revision, entries := [], 0, map[];
    }

    method Position(key: (string, Source)) returns (pos: nat)
      ensures pos == KeyIndex(commands, key)
    {
      pos := 0;
      while pos < |commands| && commands[pos].Key() != key
        invariant pos <= |commands|
        invariant KeyIndex(commands, key) == KeyIndexFrom(commands, key, pos)
      {
        pos := pos + 1;
      }
    }

    method Remove(key: (string, Source)) returns (removed: Option<Entry>)
      modifies this`commands
      ensures commands == Without(old(commands), key)
      ensures removed == Lookup(old(commands), key)
    {
      var pos := Position(key);
      removed := None;
      if pos < |commands| {
        removed := Some(commands[pos]);
        commands := commands[..pos] + commands[pos + 1..];
      }
    }

    method Register(entry: Entry) returns (replaced: Option<Entry>)
      requires Valid()
      modifies this
      ensures Valid() && commands == Applied(old(commands), Op.Register(entry))
      ensures entries == old(entries)[entry.Key() := entry]
      ensures replaced == if entry.Key() in old(entries) then Some(old(entries)[entry.Key()]) else None
      ensures revision == NextRevision(old(revision))
    {
      RegisteredRefines(commands, entries, entry);
      LookupAgrees(commands, entries, entry.Key());
      replaced := Remove(entry.Key());
      commands := commands + [entry];
      revision := NextRevision(revision);
      entries := entries[entry.Key() := entry];
    }

    // The replaced entries of a list of registrations, in order.
    method RegisterAll(batch: seq<Entry>) returns (replaced: seq<Entry>)
      requires Valid()
      modifies this
      ensures Valid() && commands == AllRegistered(old(commands), batch)
      ensures entries == AllPut(old(entries), batch)
      ensures replaced == ReplacedBy(old(entries), batch)
      ensures revision == RevisionAfter(old(revision), |batch|)
    {
      replaced := [];
      for i := 0 to |batch|
        invariant Valid() && commands == AllRegistered(old(commands), batch[..i])
        invariant entries == AllPut(old(entries), batch[..i])
        invariant replaced == ReplacedBy(old(entries), batch[..i])
        invariant revision == RevisionAfter(old(revision), i)
      {
        BatchOneMore(old(commands), old(entries), batch, i);
        var r := Register(batch[i]);
        if r.Some? { replaced := replaced + [r.value]; }
      }
      assert batch[..|batch|] == batch;
    }

    method Unregister(name: string, source: Source) returns (removed: Option<Entry>)
      requires Valid()
      modifies this
      ensures Valid() && commands == Applied(old(commands), Op.Unregister(name, source))
      ensures entries == old(entries) - {(name, source)}
      ensures removed == if (name, source) in old(entries) then Some(old(entries)[(name, source)]) else None
      ensures revision == if removed.Some? then NextRevision(old(revision)) else old(revision)
    {
      WithoutRefines(commands, entries, (name, source));
      LookupAgrees(commands, entries, (name, source));
      entries := entries - {(name, source)};
      removed := Remove((name, source));
      if removed.Some? {
        revision := NextRevision(revision);
      }
    }

    method RecordUsage(name: string)
      requires Valid()
      modifies this`commands, this`entries
      ensures Valid() && commands == Applied(old(commands), Op.RecordUsage(name))
      ensures entries == MapApplied(old(entries), Op.RecordUsage(name))
    {
      UsedRefines(commands, entries, name);
      commands := BoostAll(commands, name);
      entries := MapApplied(entries, Op.RecordUsage(name));
    }

    static method BoostAll(commands: seq<Entry>, name: string) returns (boosted: seq<Entry>)
      ensures boosted == AllUsed(commands, name)
    {
      boosted := commands;
      for i := 0 to |commands|
        invariant |boosted| == |commands|
        invariant forall j :: 0 <= j < i ==> boosted[j] == Used(commands[j], name)
        invariant forall j :: i <= j < |commands| ==> boosted[j] == commands[j]
      {
        if boosted[i].name == name {
          var score := boosted[i].usageScore + 0.1;
          boosted := boosted[i := boosted[i].(usageScore := if score < 1.0 then score else 1.0)];
        }
      }
    }

    method Find(query: string) returns (best: Option<Entry>)
      ensures Finds(commands, query, best)
    {
      best := None;
      var bestPriority := 0;
      ghost var at: nat := 0;
      for i := 0 to |commands|
        invariant best.None? ==> forall j :: 0 <= j < i ==> !commands[j].Answers(query)
        invariant best.Some? ==> bestPriority == best.value.source.Priority()
        invariant best.Some? ==> at < i && IsBest(commands[..i], query, at) && commands[at] == best.value
      {
        var entry := commands[i];
        assert commands[..i + 1] == commands[..i] + [entry];
        if entry.name == query || query in entry.aliases {
          var priority := entry.source.Priority();
          if best.None? || priority > bestPriority {
            best, bestPriority, at := Some(entry), priority, i;
          }
        }
      }
      assert commands[..|commands|] == commands;
    }

    method ListVisible() returns (listed: seq<Entry>)
      ensures StableSortOf(listed, Visible(commands)) && multiset(listed) == multiset(Visible(commands))
    {
      var visible: seq<Entry> := [];
      for i := 0 to |commands|
        invariant visible == Visible(commands[..i])
      {
        assert commands[..i + 1][..i] == commands[..i];
        if !commands[i].hidden { visible := visible + [commands[i]]; }
      }
      assert commands[..|commands|] == commands;
      SortIsStable(visible);
      listed := StableSort(visible);
    }

    method ListAll() returns (listed: seq<Entry>)
      ensures StableSortOf(listed, commands) && multiset(listed) == multiset(commands)
    {
      SortIsStable(commands);
      listed := StableSort(commands);
    }
  }
}
