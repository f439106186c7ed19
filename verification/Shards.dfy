/** Sharding the PTY test suite: checking that the configured module prefixes
    assign every test once, and running what they assign
    (`scripts/pty_tui_shards.py`). */
module Shards {
  import opened Wrappers

  // A mapping from shard name to prefixes, in its iteration order.
  type ShardMap = seq<(string, seq<string>)>
  type Pair = (string, string)  // shard, prefix

  ghost predicate DistinctNames(shards: ShardMap) {
    forall i, j :: 0 <= i < j < |shards| ==> shards[i].0 != shards[j].0
  }

  predicate PrefixMatches(test: string, prefix: string) {
    prefix + "::" <= test
  }

  // A prefix matches the tests of its module: those named by it, a double colon
  // and something more or nothing.
  lemma PrefixMeans(test: string, prefix: string)
    ensures PrefixMatches(test, prefix) <==> exists rest: string :: test == prefix + "::" + rest
  {
    if PrefixMatches(test, prefix) {
      assert test == prefix + "::" + test[|prefix| + 2..];
    }
  }

  predicate Contains(text: string, part: string) {
    part <= text || (text != "" && Contains(text[1..], part))
  }

  lemma {:induction false} ContainedIsWithin(text: string, part: string) returns (a: string, b: string)
    requires Contains(text, part)
    ensures text == a + part + b
  {
    if part <= text {
      a, b := "", text[|part|..];
    } else {
      a, b := ContainedIsWithin(text[1..], part);
      a := [text[0]] + a;
    }
  }

  lemma {:induction false} WithinIsContained(a: string, part: string, b: string)
    ensures Contains(a + part + b, part)
  {
    var text := a + part + b;
    if a == "" {
      assert part <= text;
    } else {
      assert text[1..] == a[1..] + part + b;
      WithinIsContained(a[1..], part, b);
    }
  }

  lemma {:induction false} ContainsMeans(text: string, part: string)
    ensures Contains(text, part) <==> exists a: string, b: string :: text == a + part + b
  {
    if Contains(text, part) {
      var a, b := ContainedIsWithin(text, part);
    }
    forall a: string, b: string | text == a + part + b ensures Contains(text, part) {
      WithinIsContained(a, part, b);
    }
  }

  function PairsOf(shard: string, prefixes: seq<string>): seq<Pair> {
    seq(|prefixes|, i requires 0 <= i < |prefixes| => (shard, prefixes[i]))
  }

  function Pairs(shards: ShardMap): seq<Pair> {
    if shards == [] then [] else PairsOf(shards[0].0, shards[0].1) + Pairs(shards[1..])
  }

  function Matches(pairs: seq<Pair>, test: string): seq<Pair> {
    if pairs == [] then []
    else (if PrefixMatches(test, pairs[0].1) then [pairs[0]] else []) + Matches(pairs[1..], test)
  }

  datatype Coverage = Coverage(allTests: set<string>, ignoredTests: set<string>, assignments: map<string, set<string>>)
  {
    function DefaultTests(): set<string> { allTests - ignoredTests }

    function DefaultAssignment(shard: string): set<string>
      requires shard in assignments
    {
      assignments[shard] - ignoredTests
    }
  }

  datatype ShardError =
    | WrongTotal
    | UnknownIgnored
    | WrongIgnored
    | WrongDefault
    | Unassigned(tests: set<string>)
    | MultiplyAssigned(tests: set<string>)
    | UnusedPrefixes(pairs: set<Pair>)
    | IncompleteUnion
    | Overlap(left: string, right: string)

  datatype Expected = Expected(total: nat, ignored: nat, default_: nat)

  ghost predicate CountsAgree(all: set<string>, ignored: set<string>, expected: Expected) {
    && |all| == expected.total && ignored <= all
    && |ignored| == expected.ignored && |all - ignored| == expected.default_
  }

  // Every test matches exactly one configured prefix and every prefix matches
  // some test.
  ghost predicate ExactAssignment(all: set<string>, pairs: seq<Pair>) {
    && (forall t :: t in all ==> |Matches(pairs, t)| == 1)
    && (forall p :: p in pairs ==> exists t :: t in all && PrefixMatches(t, p.1))
  }

  // ------------------------------------------------------------------ matching

  lemma {:induction false} MatchesAre(pairs: seq<Pair>, test: string)
    ensures forall p :: p in Matches(pairs, test) <==> p in pairs && PrefixMatches(test, p.1)
  {
    if pairs != [] {
      MatchesAre(pairs[1..], test);
      assert pairs == [pairs[0]] + pairs[1..];
    }
  }

  lemma NoMatches(pairs: seq<Pair>, test: string)
    ensures |Matches(pairs, test)| == 0 <==> forall p :: p in pairs ==> !PrefixMatches(test, p.1)
  {
    MatchesAre(pairs, test);
    if Matches(pairs, test) != [] { assert Matches(pairs, test)[0] in Matches(pairs, test); }
  }

  lemma {:induction false} TwoMatches(pairs: seq<Pair>, test: string, i: nat, j: nat)
    requires i < j < |pairs| && PrefixMatches(test, pairs[i].1) && PrefixMatches(test, pairs[j].1)
    ensures |Matches(pairs, test)| >= 2
  {
    if i == 0 {
      MatchesAre(pairs[1..], test);
      assert pairs[j] in pairs[1..];
      assert Matches(pairs[1..], test) != [];
    } else {
      TwoMatches(pairs[1..], test, i - 1, j - 1);
    }
  }

  lemma {:induction false} PairsNameShards(shards: ShardMap, p: Pair)
    ensures p in Pairs(shards) <==> exists i :: 0 <= i < |shards| && p.0 == shards[i].0 && p.1 in shards[i].1
  {
    if shards != [] {
      var first := PairsOf(shards[0].0, shards[0].1);
      assert p in first <==> p.0 == shards[0].0 && p.1 in shards[0].1 by {
        if p.0 == shards[0].0 && p.1 in shards[0].1 {
          var k :| 0 <= k < |shards[0].1| && shards[0].1[k] == p.1;
          assert first[k] == p;
        }
      }
      PairsNameShards(shards[1..], p);
      if p in Pairs(shards[1..]) {
        var i :| 0 <= i < |shards[1..]| && p.0 == shards[1..][i].0 && p.1 in shards[1..][i].1;
        assert shards[i + 1] == shards[1..][i];
      }
      if exists i :: 0 < i < |shards| && p.0 == shards[i].0 && p.1 in shards[i].1 {
        var i :| 0 < i < |shards| && p.0 == shards[i].0 && p.1 in shards[i].1;
        assert shards[1..][i - 1] == shards[i];
      }
    }
  }

  // A prefix configured twice, or one that lies inside another's module, is
  // never accepted, in one shard or across two.
  lemma OverlappingPrefixesRejected(all: set<string>, pairs: seq<Pair>, i: nat, j: nat)
    requires i < |pairs| && j < |pairs| && i != j
    requires pairs[j].1 == pairs[i].1 || PrefixMatches(pairs[j].1, pairs[i].1)
    ensures !ExactAssignment(all, pairs)
  {
    if ExactAssignment(all, pairs) {
      assert pairs[j] in pairs;
      var t :| t in all && PrefixMatches(t, pairs[j].1);
      assert PrefixMatches(t, pairs[i].1) by {
        if PrefixMatches(pairs[j].1, pairs[i].1) {
          var p := pairs[i].1 + "::";
          assert p == pairs[j].1[..|p|] == t[..|p|];
        }
      }
      TwoMatches(pairs, t, if i < j then i else j, if i < j then j else i);
    }
  }

  // ---------------------------------------------------------------- validation

  function UnassignedIn(pairs: seq<Pair>, done: set<string>): set<string> {
    set t | t in done && |Matches(pairs, t)| == 0
  }

  function MultipleIn(pairs: seq<Pair>, done: set<string>): set<string> {
    set t | t in done && |Matches(pairs, t)| > 1
  }

  function UsedIn(pairs: seq<Pair>, done: set<string>): set<Pair> {
    set t | t in done && |Matches(pairs, t)| == 1 :: Matches(pairs, t)[0]
  }

  ghost function Names(shards: ShardMap): set<string> {
    set i | 0 <= i < |shards| :: shards[i].0
  }

  // The assignments made for the tests in `done`.
  ghost predicate AssignsAsMatched(assignments: map<string, set<string>>, done: set<string>, shards: ShardMap) {
    && assignments.Keys == Names(shards)
    && (forall shard, t :: shard in assignments ==>
         (t in assignments[shard] <==> t in done && AssignedTo(shards, t, shard)))
  }

  ghost predicate AssignedTo(shards: ShardMap, t: string, shard: string) {
    |Matches(Pairs(shards), t)| == 1 && Matches(Pairs(shards), t)[0].0 == shard
  }

  lemma OneMoreUnassigned(pairs: seq<Pair>, done: set<string>, t: string)
    ensures UnassignedIn(pairs, done + {t}) == UnassignedIn(pairs, done) + if |Matches(pairs, t)| == 0 then {t} else {}
  {
  }

  lemma OneMoreMultiple(pairs: seq<Pair>, done: set<string>, t: string)
    ensures MultipleIn(pairs, done + {t}) == MultipleIn(pairs, done) + if |Matches(pairs, t)| > 1 then {t} else {}
  {
  }

  lemma OneMoreUsed(pairs: seq<Pair>, done: set<string>, t: string)
    ensures UsedIn(pairs, done + {t}) ==
      UsedIn(pairs, done) + if |Matches(pairs, t)| == 1 then {Matches(pairs, t)[0]} else {}
  {
    if |Matches(pairs, t)| == 1 {
      assert t in done + {t} && Matches(pairs, t)[0] in UsedIn(pairs, done + {t});
    }
  }

  lemma MatchNamesShard(shards: ShardMap, test: string)
    requires |Matches(Pairs(shards), test)| == 1
    ensures Matches(Pairs(shards), test)[0].0 in Names(shards)
  {
    var p := Matches(Pairs(shards), test)[0];
    MatchesAre(Pairs(shards), test);
    assert p in Matches(Pairs(shards), test);
    PairsNameShards(shards, p);
  }

  method EmptyAssignments(shards: ShardMap) returns (assignments: map<string, set<string>>)
    ensures AssignsAsMatched(assignments, {}, shards)
  {
    assignments := map[];
    for i := 0 to |shards|
      invariant assignments.Keys == set k | 0 <= k < i :: shards[k].0
      invariant forall name :: name in assignments ==> assignments[name] == {}
    {
      assignments := assignments[shards[i].0 := {}];
    }
  }

  // The loop over the discovered tests.
  method AssignTests(all: set<string>, shards: ShardMap)
    returns (assignments: map<string, set<string>>, unassigned: set<string>, multiple: set<string>, used: set<Pair>)
    ensures AssignsAsMatched(assignments, all, shards)
    ensures unassigned == UnassignedIn(Pairs(shards), all) && multiple == MultipleIn(Pairs(shards), all)
    ensures used == UsedIn(Pairs(shards), all)
  {
    var pairs := Pairs(shards);
    assignments := EmptyAssignments(shards);
    unassigned, multiple, used := {}, {}, {};
    var rest := all;
    ghost var done := {};
    while rest != {}
      invariant done == all - rest && rest <= all
      invariant AssignsAsMatched(assignments, done, shards)
      invariant unassigned == UnassignedIn(pairs, done) && multiple == MultipleIn(pairs, done)
      invariant used == UsedIn(pairs, done)
    {
      var test :| test in rest;
      OneMoreUnassigned(pairs, done, test);
      OneMoreMultiple(pairs, done, test);
      OneMoreUsed(pairs, done, test);
      rest, done := rest - {test}, done + {test};
      var matches := Matches(pairs, test);
      if |matches| == 0 {
        unassigned := unassigned + {test};
      } else if |matches| > 1 {
        multiple := multiple + {test};
      } else {
        MatchNamesShard(shards, test);
        var (shard, prefix) := matches[0];
        assignments := assignments[shard := assignments[shard] + {test}];
        used := used + {(shard, prefix)};
      }
    }
    assert done == all;
  }

  // With every test matched once, the configured pairs that no test used are
  // those that match no test at all.
  lemma UsedMeansMatched(all: set<string>, pairs: seq<Pair>, p: Pair)
    requires forall t :: t in all ==> |Matches(pairs, t)| == 1
    requires p in pairs
    ensures p in UsedIn(pairs, all) <==> exists t :: t in all && PrefixMatches(t, p.1)
  {
    if p in UsedIn(pairs, all) {
      var t :| t in all && Matches(pairs, t)[0] == p;
      MatchesAre(pairs, t);
      assert p in Matches(pairs, t);
    }
    if exists t :: t in all && PrefixMatches(t, p.1) {
      var t :| t in all && PrefixMatches(t, p.1);
      MatchesAre(pairs, t);
      assert Matches(pairs, t) == [Matches(pairs, t)[0]] && p in Matches(pairs, t);
    }
  }

  lemma UnionIsAll(all: set<string>, shards: ShardMap, assignments: map<string, set<string>>)
    requires AssignsAsMatched(assignments, all, shards)
    requires forall t :: t in all ==> |Matches(Pairs(shards), t)| == 1
    ensures (set name, t | name in assignments && t in assignments[name] :: t) == all
  {
    forall t | t in all ensures exists name :: name in assignments && t in assignments[name] {
      MatchNamesShard(shards, t);
      assert t in assignments[Matches(Pairs(shards), t)[0].0];
    }
  }

  lemma NoOverlap(all: set<string>, shards: ShardMap, assignments: map<string, set<string>>, left: string,
      right: string)
    requires AssignsAsMatched(assignments, all, shards) && left in assignments && right in assignments && left != right
    ensures assignments[left] * assignments[right] == {}
  {
    forall t | t in assignments[left] ensures t !in assignments[right] {
      assert AssignedTo(shards, t, left) && !AssignedTo(shards, t, right);
    }
  }

  // What each error says, given that none of those before it applies.
  ghost predicate Reports(error: ShardError, all: set<string>, ignored: set<string>, pairs: seq<Pair>,
      expected: Expected) {
    match error
    case WrongTotal => |all| != expected.total
    case UnknownIgnored => |all| == expected.total && !(ignored <= all)
    case WrongIgnored => |all| == expected.total && ignored <= all && |ignored| != expected.ignored
    case WrongDefault =>
      |all| == expected.total && ignored <= all && |ignored| == expected.ignored && |all - ignored| != expected.default_
    case Unassigned(tests) =>
      CountsAgree(all, ignored, expected) && tests != {} && ReportsUnassigned(tests, all, pairs)
    case MultiplyAssigned(tests) =>
      CountsAgree(all, ignored, expected) && tests != {} && ReportsUnassigned({}, all, pairs)
        && tests == MultipleIn(pairs, all)
    case UnusedPrefixes(unused) =>
      CountsAgree(all, ignored, expected) && unused != {} && (forall t :: t in all ==> |Matches(pairs, t)| == 1)
        && forall p :: p in unused <==> p in pairs && forall t :: t in all ==> !PrefixMatches(t, p.1)
    case IncompleteUnion => false
    case Overlap(_, _) => false
  }

  ghost predicate ReportsUnassigned(tests: set<string>, all: set<string>, pairs: seq<Pair>) {
    forall t :: t in tests <==> t in all && forall p :: p in pairs ==> !PrefixMatches(t, p.1)
  }

  lemma UnassignedReported(all: set<string>, pairs: seq<Pair>)
    ensures ReportsUnassigned(UnassignedIn(pairs, all), all, pairs)
  {
    forall t ensures t in UnassignedIn(pairs, all) <==> t in all && forall p :: p in pairs ==> !PrefixMatches(t, p.1) {
      NoMatches(pairs, t);
    }
  }

  lemma CountsReported(all: set<string>, ignored: set<string>, pairs: seq<Pair>, expected: Expected, error: ShardError)
    requires Reports(error, all, ignored, pairs, expected)
    ensures !(CountsAgree(all, ignored, expected) && ExactAssignment(all, pairs))
  {
    match error
    case Unassigned(tests) =>
      var t :| t in tests;
      NoMatches(pairs, t);
    case MultiplyAssigned(tests) =>
      var t :| t in tests;
      assert t in all && |Matches(pairs, t)| > 1;
    case UnusedPrefixes(unused) =>
      var p :| p in unused;
      assert p in pairs;
    case _ =>
  }

  lemma MatchedOnce(all: set<string>, pairs: seq<Pair>)
    requires UnassignedIn(pairs, all) == {} && MultipleIn(pairs, all) == {}
    ensures forall t :: t in all ==> |Matches(pairs, t)| == 1
  {
    forall t | t in all ensures |Matches(pairs, t)| == 1 {
      assert t !in UnassignedIn(pairs, all) && t !in MultipleIn(pairs, all);
    }
  }

  lemma UnusedReported(all: set<string>, pairs: seq<Pair>, unused: set<Pair>)
    requires forall t :: t in all ==> |Matches(pairs, t)| == 1
    requires unused == (set p | p in pairs) - UsedIn(pairs, all)
    ensures forall p :: p in unused <==> p in pairs && forall t :: t in all ==> !PrefixMatches(t, p.1)
    ensures unused == {} ==> ExactAssignment(all, pairs)
  {
    forall p | p in pairs ensures p in unused <==> forall t :: t in all ==> !PrefixMatches(t, p.1) {
      UsedMeansMatched(all, pairs, p);
    }
    if unused == {} {
      forall p | p in pairs ensures exists t :: t in all && PrefixMatches(t, p.1) { assert p !in unused; }
    }
  }

  // The checks of the prefixes against the discovered tests.
  method CheckAssignment(all: set<string>, ignored: set<string>, shards: ShardMap, ghost expected: Expected)
    returns (r: Result<map<string, set<string>>, ShardError>)
    requires CountsAgree(all, ignored, expected)
    ensures r.Ok? ==> ExactAssignment(all, Pairs(shards)) && AssignsAsMatched(r.value, all, shards)
    ensures r.Err? ==> Reports(r.error, all, ignored, Pairs(shards), expected)
  {
    var assignments, unassigned, multiple, used := AssignTests(all, shards);
    var pairs := Pairs(shards);
    UnassignedReported(all, pairs);
    if unassigned != {} {
      return Err(Unassigned(unassigned));
    }
    if multiple != {} {
      return Err(MultiplyAssigned(multiple));
    }
    MatchedOnce(all, pairs);
    var unused := (set p | p in pairs) - used;
    UnusedReported(all, pairs, unused);
    if unused != {} {
      return Err(UnusedPrefixes(unused));
    }
    return Ok(assignments);
  }

  // Accepts exactly the exact assignments with the expected counts, and otherwise
  // reports the first check that failed. The last two checks are made but never
  // fail.
  method ValidateCoverage(all: set<string>, ignored: set<string>, shards: ShardMap, expected: Expected)
    returns (r: Result<Coverage, ShardError>)
    requires DistinctNames(shards)
    ensures r.Ok? <==> CountsAgree(all, ignored, expected) && ExactAssignment(all, Pairs(shards))
    ensures r.Ok? ==> r.value.allTests == all && r.value.ignoredTests == ignored
    ensures r.Ok? ==> AssignsAsMatched(r.value.assignments, all, shards)
    ensures r.Err? ==> Reports(r.error, all, ignored, Pairs(shards), expected)
  {
    if |all| != expected.total { return Err(WrongTotal); }
    if !(ignored <= all) { return Err(UnknownIgnored); }
    if |ignored| != expected.ignored { return Err(WrongIgnored); }
    if |all - ignored| != expected.default_ { return Err(WrongDefault); }

    var checked := CheckAssignment(all, ignored, shards, expected);
    if checked.Err? {
      CountsReported(all, ignored, Pairs(shards), expected, checked.error);
      return Err(checked.error);
    }
    var assignments := checked.value;
    UnionIsAll(all, shards, assignments);
    if (set name, t | name in assignments && t in assignments[name] :: t) != all {
      return Err(IncompleteUnion);
    }
    for i := 0 to |shards| {
      for j := i + 1 to |shards| {
        var left, right := shards[i].0, shards[j].0;
        assert left in Names(shards) && right in Names(shards);
        NoOverlap(all, shards, assignments, left, right);
        if assignments[left] * assignments[right] != {} {
          return Err(Overlap(left, right));
        }
      }
    }
    return Ok(Coverage(all, ignored, assignments));
  }

  // ------------------------------------------------------------------- running

  // A test command: all tests whose name contains the filter text, or the one
  // of exactly that name. Neither runs ignored tests.
  datatype Command = Filter(text: string) | Exact(test: string)

  function Ran(c: Command, all: set<string>, ignored: set<string>): set<string> {
    match c
    case Filter(text) => set t | t in all - ignored && Contains(t, text)
    case Exact(test) => set t | t in all - ignored && t == test
  }

  function RanAll(commands: seq<Command>, all: set<string>, ignored: set<string>): multiset<string> {
    if commands == [] then multiset{}
    else RanAll(commands[..|commands| - 1], all, ignored) + multiset(Ran(commands[|commands| - 1], all, ignored))
  }

  // One module filter when it selects just the wanted tests, otherwise one
  // command per test. Either way each wanted test runs once and nothing else
  // does, although the filter matches anywhere in a name.
  method PtyTestCommands(prefix: string, runnable: set<string>, all: set<string>, ignored: set<string>)
    returns (commands: seq<Command>)
    requires runnable <= all - ignored
    ensures RanAll(commands, all, ignored) == multiset(runnable)
  {
    var text := prefix + "::";
    var selected := set t | t in all - ignored && Contains(t, text);
    if selected == runnable {
      if runnable == {} {
        return [];
      }
      commands := [Filter(text)];
      assert commands[..0] == [];
      assert Ran(Filter(text), all, ignored) == runnable;
      return;
    }
    commands := [];
    var rest := runnable;
    while rest != {}
      invariant rest <= runnable
      invariant RanAll(commands, all, ignored) == multiset(runnable - rest)
    {
      var test :| test in rest;
      ghost var done := runnable - rest;
      rest := rest - {test};
      assert (commands + [Exact(test)])[..|commands|] == commands;
      commands := commands + [Exact(test)];
      assert Ran(Exact(test), all, ignored) == {test};
      assert runnable - rest == done + {test};
    }
    assert runnable - rest == runnable;
  }

  function Runnable(c: Coverage, p: Pair): set<string> {
    if p.0 in c.assignments then set t | t in c.DefaultAssignment(p.0) && PrefixMatches(t, p.1) else {}
  }

  // The tests a list of shard prefixes should run, with repetitions.
  ghost function Planned(c: Coverage, pairs: seq<Pair>): multiset<string> {
    if pairs == [] then multiset{}
    else Planned(c, pairs[..|pairs| - 1]) + multiset(Runnable(c, pairs[|pairs| - 1]))
  }

  method RunShard(c: Coverage, shard: string, prefixes: seq<string>) returns (executed: multiset<string>)
    requires shard in c.assignments && c.assignments[shard] <= c.allTests
    ensures executed == Planned(c, PairsOf(shard, prefixes))
  {
    executed := multiset{};
    for i := 0 to |prefixes|
      invariant executed == Planned(c, PairsOf(shard, prefixes)[..i])
    {
      assert PairsOf(shard, prefixes)[..i + 1][..i] == PairsOf(shard, prefixes)[..i];
      var runnable := set t | t in c.DefaultAssignment(shard) && PrefixMatches(t, prefixes[i]);
      var commands := PtyTestCommands(prefixes[i], runnable, c.allTests, c.ignoredTests);
      executed := executed + RanAll(commands, c.allTests, c.ignoredTests);
    }
    assert PairsOf(shard, prefixes)[..|prefixes|] == PairsOf(shard, prefixes);
  }

  lemma {:induction false} PlannedConcat(c: Coverage, a: seq<Pair>, b: seq<Pair>)
    ensures Planned(c, a + b) == Planned(c, a) + Planned(c, b)
  {
    if b == [] {
      assert a + b == a;
    } else {
      assert (a + b)[..|a + b| - 1] == a + b[..|b| - 1];
      PlannedConcat(c, a, b[..|b| - 1]);
    }
  }

  // How often a test is planned is how often the shard it belongs to lists a
  // prefix it matches.
  lemma {:induction false} PlannedCount(c: Coverage, shards: ShardMap, pairs: seq<Pair>, t: string)
    requires AssignsAsMatched(c.assignments, c.allTests, shards)
    requires |Matches(Pairs(shards), t)| == 1 && t in c.DefaultTests()
    requires forall p :: p in pairs ==> p in Pairs(shards)
    ensures Planned(c, pairs)[t] == |Matches(pairs, t)|
  {
    if pairs != [] {
      var front, last := pairs[..|pairs| - 1], pairs[|pairs| - 1];
      assert last in pairs && pairs == front + [last];
      PlannedCount(c, shards, front, t);
      MatchesSnoc(front, last, t);
      RunnableMatches(c, shards, last, t);
    }
  }

  // A default test is run for a configured prefix exactly if it matches it.
  lemma RunnableMatches(c: Coverage, shards: ShardMap, p: Pair, t: string)
    requires AssignsAsMatched(c.assignments, c.allTests, shards)
    requires |Matches(Pairs(shards), t)| == 1 && t in c.DefaultTests() && p in Pairs(shards)
    ensures t in Runnable(c, p) <==> PrefixMatches(t, p.1)
  {
    MatchesAre(Pairs(shards), t);
    assert Matches(Pairs(shards), t) == [Matches(Pairs(shards), t)[0]];
    PairsNameShards(shards, p);
    assert p.0 in Names(shards);
    assert PrefixMatches(t, p.1) ==> p in Matches(Pairs(shards), t);
  }

  lemma {:induction false} MatchesSnoc(pairs: seq<Pair>, last: Pair, t: string)
    ensures Matches(pairs + [last], t) == Matches(pairs, t) + if PrefixMatches(t, last.1) then [last] else []
  {
    if pairs != [] {
      MatchesSnoc(pairs[1..], last, t);
      assert (pairs + [last])[1..] == pairs[1..] + [last];
    } else {
      assert [last][1..] == [];
    }
  }

  lemma {:induction false} PlannedOnlyDefault(c: Coverage, pairs: seq<Pair>, t: string)
    requires t !in c.DefaultTests() && forall shard :: shard in c.assignments ==> c.assignments[shard] <= c.allTests
    ensures Planned(c, pairs)[t] == 0
  {
    if pairs != [] {
      PlannedOnlyDefault(c, pairs[..|pairs| - 1], t);
    }
  }

  // The whole configuration plans every default test exactly once and nothing else.
  lemma ExactCover(c: Coverage, shards: ShardMap)
    requires ExactAssignment(c.allTests, Pairs(shards)) && AssignsAsMatched(c.assignments, c.allTests, shards)
    ensures Planned(c, Pairs(shards)) == multiset(c.DefaultTests())
  {
    forall t ensures Planned(c, Pairs(shards))[t] == multiset(c.DefaultTests())[t] {
      if t in c.DefaultTests() {
        PlannedCount(c, shards, Pairs(shards), t);
      } else {
        PlannedOnlyDefault(c, Pairs(shards), t);
      }
    }
  }

  lemma PlannedFirst(c: Coverage, shards: ShardMap, i: nat)
    requires i < |shards|
    ensures Planned(c, Pairs(shards[i..])) ==
      Planned(c, PairsOf(shards[i].0, shards[i].1)) + Planned(c, Pairs(shards[i + 1..]))
  {
    assert shards[i..][1..] == shards[i + 1..];
    PlannedConcat(c, PairsOf(shards[i].0, shards[i].1), Pairs(shards[i + 1..]));
  }

  method RunAllShards(c: Coverage, shards: ShardMap) returns (executed: multiset<string>)
    requires AssignsAsMatched(c.assignments, c.allTests, shards)
    ensures executed == Planned(c, Pairs(shards))
  {
    executed := multiset{};
    assert shards[0..] == shards;
    for i := 0 to |shards|
      invariant executed + Planned(c, Pairs(shards[i..])) == Planned(c, Pairs(shards))
    {
      PlannedFirst(c, shards, i);
      assert shards[i].0 in Names(shards);
      var ran := RunShard(c, shards[i].0, shards[i].1);
      executed := executed + ran;
    }
  }

  // Validating and then running every shard executes each default test exactly
  // once and no ignored test.
  method ValidateAndRun(all: set<string>, ignored: set<string>, shards: ShardMap, expected: Expected)
    returns (executed: Option<multiset<string>>)
    requires DistinctNames(shards)
    ensures executed.Some? <==> CountsAgree(all, ignored, expected) && ExactAssignment(all, Pairs(shards))
    ensures executed.Some? ==> executed.value == multiset(all - ignored)
  {
    var coverage := ValidateCoverage(all, ignored, shards, expected);
    if coverage.Err? {
      return None;
    }
    var ran := RunAllShards(coverage.value, shards);
    ExactCover(coverage.value, shards);
    return Some(ran);
  }
}
