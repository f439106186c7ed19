/** What the registry's priorities, usage scores and listings mean to a caller. */
module RegistryQueries {
  import opened Wrappers
  import opened Registry

  // The sources, each outranking those after it.
  const BY_RANK := [Builtin, User, Project, Plugin, Skill]

  lemma SourcesRanked(i: nat, j: nat)
    requires i < j < |BY_RANK|
    ensures BY_RANK[i].Priority() > BY_RANK[j].Priority()
  {
  }

  // A builtin entry that answers always wins over the other sources.
  lemma BuiltinWins(cs: seq<Entry>, query: string, i: nat, j: nat)
    requires IsBest(cs, query, i) && j < |cs| && cs[j].Answers(query) && cs[j].source.Builtin?
    ensures cs[i].source.Builtin? && i <= j
  {
    assert cs[j].source.Priority() <= cs[i].source.Priority();
  }

  // After registering an entry under a key that is not the winner's, a query finds
  // the entry exactly if it names or aliases the query and outranks the winner; a
  // query that found nothing finds it exactly if it names or aliases the query.
  lemma {:induction false} RegisterShadowsExactly(cs: seq<Entry>, query: string, i: nat, e: Entry)
    requires UniqueKeys(cs) && IsBest(cs, query, i) && e.Key() != cs[i].Key()
    ensures Finds(Applied(cs, Op.Register(e)), query,
                  Some(if (query == e.name || query in e.aliases) && e.source.Priority() > cs[i].source.Priority()
                       then e else cs[i]))
  {
    var rest := Without(cs, e.Key());
    UnregisterOther(cs, query, i, e.Key());
    var k: nat :| IsBest(rest, query, k) && rest[k] == cs[i];
    if e.Answers(query) && e.source.Priority() > cs[i].source.Priority() {
      assert IsBest(rest + [e], query, |rest|);
    } else {
      assert IsBest(rest + [e], query, k);
    }
  }

  lemma {:induction false} RegisterFoundExactly(cs: seq<Entry>, query: string, e: Entry)
    requires UniqueKeys(cs) && Finds(cs, query, None)
    ensures Finds(Applied(cs, Op.Register(e)), query,
                  if query == e.name || query in e.aliases then Some(e) else None)
  {
    var rest := Without(cs, e.Key());
    forall j | 0 <= j < |rest| ensures !rest[j].Answers(query) {
      WithoutAt(cs, e.Key(), j);
    }
    if e.Answers(query) { assert IsBest(rest + [e], query, |rest|); }
  }

  // --------------------------------------------------------------------- usage

  ghost function Repeated(name: string, n: nat): seq<Op> {
    if n == 0 then [] else Repeated(name, n - 1) + [Op.RecordUsage(name)]
  }

  // Recording a use n times adds n tenths to the score of every entry of that
  // name, up to one, and changes nothing else.
  lemma {:induction false} UsesAddUp(cs: seq<Entry>, name: string, n: nat, i: nat)
    requires i < |cs| && cs[i].usageScore <= 1.0
    ensures var after := Registry.Run(cs, Repeated(name, n));
      && |after| == |cs|
      && after[i] ==
         if cs[i].name != name then cs[i]
         else
           var sum := cs[i].usageScore + n as real / 10.0;
           cs[i].(usageScore := if sum < 1.0 then sum else 1.0)
  {
    if n > 0 {
      UsesAddUp(cs, name, n - 1, i);
      assert Repeated(name, n)[..n - 1] == Repeated(name, n - 1) by { RepeatedLength(name, n - 1); }
      RepeatedLength(name, n);
      assert n as real / 10.0 == (n - 1) as real / 10.0 + 0.1;
    }
  }

  lemma {:induction false} RepeatedLength(name: string, n: nat)
    ensures |Repeated(name, n)| == n
  {
    if n > 0 { RepeatedLength(name, n - 1); }
  }

  // ------------------------------------------------------------------ listings

  // `shown` lists the entries of `cs` that are not hidden, in list order with none
  // missing; `at` says where each stands there.
  ghost predicate ShowsAt(shown: seq<Entry>, cs: seq<Entry>, at: seq<nat>) {
    && |at| == |shown|
    && (forall i :: 0 <= i < |at| ==> at[i] < |cs| && shown[i] == cs[at[i]] && !cs[at[i]].hidden)
    && (forall i, j :: 0 <= i < j < |at| ==> at[i] < at[j])
    && (forall k :: 0 <= k < |cs| && !cs[k].hidden ==> k in at)
  }

  lemma OneMoreShown(shown: seq<Entry>, cs: seq<Entry>, at: seq<nat>)
    requires cs != [] && ShowsAt(shown, cs[..|cs| - 1], at)
    ensures var last := cs[|cs| - 1];
      ShowsAt(shown + (if last.hidden then [] else [last]), cs, at + (if last.hidden then [] else [|cs| - 1]))
  {
    var at' := at + (if cs[|cs| - 1].hidden then [] else [|cs| - 1]);
    forall k | 0 <= k < |cs| && !cs[k].hidden ensures k in at' {
      if k < |cs| - 1 { assert cs[..|cs| - 1][k] == cs[k]; }
    }
  }

  lemma {:induction false} VisibleAt(cs: seq<Entry>) returns (at: seq<nat>)
    ensures ShowsAt(Visible(cs), cs, at)
  {
    at := [];
    if cs != [] {
      var front := VisibleAt(cs[..|cs| - 1]);
      OneMoreShown(Visible(cs[..|cs| - 1]), cs, front);
      at := front + (if cs[|cs| - 1].hidden then [] else [|cs| - 1]);
    }
  }

  // A listing goes by source, and within a source by how often entries are used.
  lemma ListedInOrder(listed: seq<Entry>, i: nat, j: nat)
    requires Sorted(listed) && i < j < |listed|
    ensures var a, b := listed[i], listed[j];
      a.source.Priority() > b.source.Priority()
      || (a.source.Priority() == b.source.Priority() && a.usageScore >= b.usageScore)
  {
    assert !Before(listed[j], listed[i]);
  }
}
