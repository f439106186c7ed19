/** The permission manager under interleaving. Every lock-protected region and
    every channel operation is one step; a run is any list of steps, a step that
    cannot be taken changes nothing. */
module PermissionRuns {
  import opened Wrappers
  import opened RequestIds
  import opened Permissions

  // A `cancel_all` (or, without a session, a `cancel_all_sessions`) in progress.
  // `awaiting` is the request it removed and still has to answer.
  datatype Sweep = Sweep(
    session: Option<string>,
    snapshot: set<string>,
    remaining: seq<string>,
    awaiting: Option<string>,
    removed: set<string>)

  // `registered` and the sweeps' `snapshot` and `removed` are history.
  datatype World = World(
    next: nat,
    waiting: map<nat, (string, string)>,  // numbered, not yet inserted
    registered: map<string, Pending>,
    table: Table,
    held: map<string, Decision>,          // removed, reply not yet sent
    taken: set<string>,                   // handed out by `take`
    sent: seq<(string, Decision)>,        // what each request's channel received
    sweeps: seq<Sweep>)

  datatype Step =
    | Number(sessionId: string, toolUseId: string)
    | Insert(n: nat)
    | Take(sessionId: string, toolUseId: string)
    | ReplyTaken(id: string, decision: Decision)
    | Resolve(rid: RequestId, decision: Decision)
    | Cancel(rid: RequestId)
    | Send(id: string)
    | StartSweep(session: Option<string>, order: seq<string>)
    | AdvanceSweep(i: nat)

  const INITIAL := World(0, map[], map[], Table(map[], map[]), map[], {}, [], [])

  ghost function Pendings(w: World): set<string> { w.table.byRequestId.Keys }

  ghost function Settled(w: World): set<string> {
    set k | 0 <= k < |w.sent| :: w.sent[k].0
  }

  // The requests a sweep of this session finds pending now.
  ghost function Targets(w: World, session: Option<string>): set<string> {
    set id | id in w.table.byRequestId && (session == None || session == Some(w.table.byRequestId[id].sessionId))
  }

  ghost predicate Finished(w: World, i: nat) {
    i < |w.sweeps| && w.sweeps[i].remaining == [] && Answered(w, w.sweeps[i])
  }

  ghost predicate Answered(w: World, s: Sweep) {
    s.awaiting == None || s.awaiting.value !in w.held
  }

  ghost function Removed(w: World, id: string, d: Decision): World {
    if id in w.table.byRequestId then w.(table := WithoutId(w.table, id), held := w.held[id := d]) else w
  }

  ghost function Advanced(w: World, i: nat): World
    requires i < |w.sweeps| && w.sweeps[i].remaining != []
  {
    var s := w.sweeps[i];
    var id, s' := s.remaining[0], s.(remaining := s.remaining[1..]);
    if id in w.table.byRequestId then
      Removed(w, id, Deny).(sweeps := w.sweeps[i := s'.(awaiting := Some(id), removed := s.removed + {id})])
    else
      w.(sweeps := w.sweeps[i := s'.(awaiting := None)])
  }

  ghost function Next(w: World, step: Step): World {
    match step
    case Number(sid, tool) =>
      w.(next := w.next + 1, waiting := w.waiting[w.next + 1 := (sid, tool)])
    case Insert(n) =>
      if n !in w.waiting then w else
        var p := Pending(PermissionId(w.waiting[n].0, n), w.waiting[n].0, w.waiting[n].1, n);
        w.(waiting := w.waiting - {n}, table := Registered(w.table, p), registered := w.registered[p.requestId := p])
    case Take(sid, tool) =>
      if (sid, tool) !in w.table.byTool then w else
        var id := w.table.byTool[(sid, tool)];
        if id !in w.table.byRequestId then w.(table := w.table.(byTool := w.table.byTool - {(sid, tool)}))
        else w.(table := WithoutId(w.table, id).(byTool := w.table.byTool - {(sid, tool)}), taken := w.taken + {id})
    case ReplyTaken(id, d) =>
      if id !in w.taken then w else w.(taken := w.taken - {id}, sent := w.sent + [(id, d)])
    case Resolve(rid, d) => Removed(w, Key(rid), d)
    case Cancel(rid) => Removed(w, Key(rid), Deny)
    case Send(id) =>
      if id !in w.held then w else w.(held := w.held - {id}, sent := w.sent + [(id, w.held[id])])
    case StartSweep(session, order) =>
      if !Enumerates(order, Targets(w, session)) then w else
        w.(sweeps := w.sweeps + [Sweep(session, Targets(w, session), order, None, {})])
    case AdvanceSweep(i) =>
      if i < |w.sweeps| && w.sweeps[i].remaining != [] && Answered(w, w.sweeps[i]) then Advanced(w, i) else w
  }

  ghost function Run(w: World, steps: seq<Step>): World
    decreases |steps|
  {
    if steps == [] then w else Next(Run(w, steps[..|steps| - 1]), steps[|steps| - 1])
  }

  // ---------------------------------------------------------------- invariant

  ghost predicate NumbersAgree(w: World) {
    && (forall n :: n in w.waiting ==> n <= w.next)
    && (forall id :: id in w.registered ==>
         && w.registered[id].requestId == id
         && IssuedBy(w.registered[id], w.next)
         && w.registered[id].channel !in w.waiting)
    && WellFormed(w.table)
    && (forall id :: id in w.table.byRequestId ==> id in w.registered && w.registered[id] == w.table.byRequestId[id])
  }

  // Conservation: pending, held, taken and settled partition the registered ids.
  ghost predicate Partitioned(w: World) {
    && w.registered.Keys == Pendings(w) + w.held.Keys + w.taken + Settled(w)
    && Pendings(w) !! w.held.Keys !! w.taken !! Settled(w)
  }

  ghost predicate SentOnce(w: World) {
    forall i, j :: 0 <= i < j < |w.sent| ==> w.sent[i].0 != w.sent[j].0
  }

  ghost predicate SweepSound(w: World, s: Sweep) {
    && s.snapshot <= w.registered.Keys
    && (forall id :: id in s.snapshot ==> s.session == None || s.session == Some(w.registered[id].sessionId))
    && (forall id :: id in s.snapshot && id in Pendings(w) ==> id in s.remaining)
    && (forall id :: id in s.remaining ==> id in s.snapshot)
    && s.removed <= s.snapshot
    && (forall id :: id in s.removed ==>
         (id, Deny) in w.sent || (s.awaiting == Some(id) && id in w.held && w.held[id] == Deny))
  }

  ghost predicate Core(w: World) {
    NumbersAgree(w) && Partitioned(w) && SentOnce(w)
  }

  ghost predicate Inv(w: World) {
    Core(w) && forall i :: 0 <= i < |w.sweeps| ==> SweepSound(w, w.sweeps[i])
  }

  // How the world may change under a sweep that does not move itself.
  ghost predicate Undisturbing(w: World, v: World) {
    && w.registered.Keys <= v.registered.Keys
    && (forall id :: id in w.registered ==> v.registered[id] == w.registered[id])
    && Pendings(v) * w.registered.Keys <= Pendings(w)
    && w.sent <= v.sent
    && (forall id :: id in w.held ==> (id in v.held && v.held[id] == w.held[id]) || (id, w.held[id]) in v.sent)
  }

  lemma SweepStaysSound(w: World, v: World, s: Sweep)
    requires SweepSound(w, s) && Undisturbing(w, v)
    ensures SweepSound(v, s)
  {
  }

  lemma SettledGrows(w: World, v: World, id: string, d: Decision)
    requires v.sent == w.sent + [(id, d)]
    ensures Settled(v) == Settled(w) + {id} && (id, d) in v.sent
    ensures SentOnce(w) && id !in Settled(w) ==> SentOnce(v)
  {
    assert v.sent[|w.sent|] == (id, d);
    forall k | k in Settled(w) + {id} ensures k in Settled(v) {
      if k in Settled(w) {
        var i :| 0 <= i < |w.sent| && w.sent[i].0 == k;
        assert v.sent[i].0 == k;
      }
    }
  }

  lemma InsertIsFresh(w: World, n: nat)
    requires NumbersAgree(w) && n in w.waiting
    ensures PermissionId(w.waiting[n].0, n) !in w.registered
  {
    var id := PermissionId(w.waiting[n].0, n);
    if id in w.registered {
      PermissionIdInjective(w.registered[id].sessionId, w.registered[id].channel, w.waiting[n].0, n);
    }
  }

  lemma InsertKeepsCore(w: World, n: nat)
    requires Core(w) && n in w.waiting
    ensures Core(Next(w, Insert(n))) && Undisturbing(w, Next(w, Insert(n)))
  {
    var p, v := Pending(PermissionId(w.waiting[n].0, n), w.waiting[n].0, w.waiting[n].1, n), Next(w, Insert(n));
    InsertIsFresh(w, n);
    assert Pendings(v) == Pendings(w) + {p.requestId};
    assert Partitioned(v) by { assert Settled(v) == Settled(w); }
    assert NumbersAgree(v) by { RegisterKeepsWellFormed(w.table, p); }
  }

  lemma RemovedPartition(w: World, v: World, id: string)
    requires Partitioned(w) && SentOnce(w) && id in w.table.byRequestId
    requires v.sent == w.sent && v.registered == w.registered && v.taken == w.taken
    requires v.table.byRequestId.Keys == w.table.byRequestId.Keys - {id} && v.held.Keys == w.held.Keys + {id}
    ensures Partitioned(v) && SentOnce(v)
  {
    assert Settled(v) == Settled(w);
  }

  lemma RemovedKeepsCore(w: World, id: string, d: Decision)
    requires Core(w) && id in w.table.byRequestId
    ensures var v := Removed(w, id, d);
      Core(v) && Undisturbing(w, v)
  {
    RemoveKeepsWellFormed(w.table, id);
    var v := Removed(w, id, d);
    assert Pendings(v) == Pendings(w) - {id};
    RemovedPartition(w, v, id);
  }

  lemma TakeKeepsCore(w: World, sid: string, tool: string)
    requires Core(w) && (sid, tool) in w.table.byTool
    ensures var v := Next(w, Take(sid, tool));
      Core(v) && Undisturbing(w, v)
  {
    var id := w.table.byTool[(sid, tool)];
    RemoveKeepsWellFormed(w.table, id);
    var v := Next(w, Take(sid, tool));
    assert v.table == WithoutId(w.table, id);
    assert Pendings(v) == Pendings(w) - {id} && v.taken == w.taken + {id} && Settled(v) == Settled(w);
  }

  lemma SentPartition(w: World, v: World, id: string)
    requires Partitioned(w) && SentOnce(w) && id in w.held && v == Next(w, Send(id))
    ensures Partitioned(v) && SentOnce(v)
  {
    SettledGrows(w, v, id, w.held[id]);
    assert v.held.Keys == w.held.Keys - {id};
  }

  lemma SendKeepsCore(w: World, id: string)
    requires Core(w) && id in w.held
    ensures Core(Next(w, Send(id))) && Undisturbing(w, Next(w, Send(id)))
  {
    var v := Next(w, Send(id));
    SentPartition(w, v, id);
    SettledGrows(w, v, id, w.held[id]);
  }

  lemma ReplyTakenKeepsCore(w: World, id: string, d: Decision)
    requires Core(w) && id in w.taken
    ensures Core(Next(w, ReplyTaken(id, d))) && Undisturbing(w, Next(w, ReplyTaken(id, d)))
  {
    SettledGrows(w, Next(w, ReplyTaken(id, d)), id, d);
  }

  lemma AdvanceKeepsSweep(w: World, i: nat)
    requires Inv(w) && i < |w.sweeps| && w.sweeps[i].remaining != [] && Answered(w, w.sweeps[i])
    ensures SweepSound(Advanced(w, i), Advanced(w, i).sweeps[i])
  {
    var s, v := w.sweeps[i], Advanced(w, i);
    var id, t := s.remaining[0], v.sweeps[i];
    assert s.remaining == [id] + t.remaining;
    AdvancedPendings(w, i);
    forall j | j in t.snapshot && j in Pendings(v) ensures j in t.remaining {
      assert j in s.remaining && j != id;
    }
  }

  // Moving a sweep on takes its next id, if still pending, and nothing else.
  lemma AdvancedPendings(w: World, i: nat)
    requires Core(w) && i < |w.sweeps| && w.sweeps[i].remaining != []
    ensures var v, id := Advanced(w, i), w.sweeps[i].remaining[0];
      && Pendings(v) == Pendings(w) - {id} && v.registered == w.registered && v.sent == w.sent
      && (forall h :: h in w.held ==> h in v.held && v.held[h] == w.held[h])
      && (id in w.table.byRequestId ==> id in v.held && v.held[id] == Deny)
  {
    var id := w.sweeps[i].remaining[0];
    if id in w.table.byRequestId {
      RemoveKeepsWellFormed(w.table, id);
      RemovedKeepsCore(w, id, Deny);
    }
  }

  // Core does not speak of the sweeps.
  lemma SweepsAside(w: World, u: World, v: World)
    requires Core(u) && Undisturbing(w, u) && v == u.(sweeps := v.sweeps)
    ensures Core(v) && Undisturbing(w, v)
  {
    assert Settled(v) == Settled(u) && Pendings(v) == Pendings(u);
  }

  lemma NumberKeepsCore(w: World, sid: string, tool: string)
    requires Core(w)
    ensures Core(Next(w, Step.Number(sid, tool))) && Undisturbing(w, Next(w, Step.Number(sid, tool)))
  {
    assert Settled(Next(w, Step.Number(sid, tool))) == Settled(w);
  }

  // Answering a request that was found by its id.
  lemma SettleKeepsCore(w: World, id: string, d: Decision)
    requires Core(w)
    ensures Core(Removed(w, id, d)) && Undisturbing(w, Removed(w, id, d))
  {
    if id in w.table.byRequestId { RemovedKeepsCore(w, id, d); }
  }

  lemma StepKeepsCore(w: World, step: Step)
    requires Core(w)
    ensures Core(Next(w, step)) && Undisturbing(w, Next(w, step))
  {
    match step {
      case Number(sid, tool) => NumberKeepsCore(w, sid, tool);
      case Insert(n) => if n in w.waiting { InsertKeepsCore(w, n); }
      case Take(sid, tool) => if (sid, tool) in w.table.byTool { TakeKeepsCore(w, sid, tool); }
      case ReplyTaken(id, d) => if id in w.taken { ReplyTakenKeepsCore(w, id, d); }
      case Resolve(rid, d) => SettleKeepsCore(w, Key(rid), d);
      case Cancel(rid) => SettleKeepsCore(w, Key(rid), Deny);
      case Send(id) => if id in w.held { SendKeepsCore(w, id); }
      case StartSweep(_, _) => SweepsAside(w, w, Next(w, step));
      case AdvanceSweep(i) =>
        if i < |w.sweeps| && w.sweeps[i].remaining != [] && Answered(w, w.sweeps[i]) {
          AdvanceKeepsCore(w, i);
        }
    }
  }

  lemma AdvanceKeepsCore(w: World, i: nat)
    requires Core(w) && i < |w.sweeps| && w.sweeps[i].remaining != []
    ensures Core(Advanced(w, i)) && Undisturbing(w, Advanced(w, i))
  {
    var id := w.sweeps[i].remaining[0];
    if id in w.table.byRequestId { RemovedKeepsCore(w, id, Deny); }
    SweepsAside(w, Removed(w, id, Deny), Advanced(w, i));
  }

  lemma StepKeepsInv(w: World, step: Step)
    requires Inv(w)
    ensures Inv(Next(w, step))
  {
    var v := Next(w, step);
    StepKeepsCore(w, step);
    forall j | 0 <= j < |v.sweeps| ensures SweepSound(v, v.sweeps[j]) {
      SweepsMoveAlone(w, step, j);
      if j < |w.sweeps| && v.sweeps[j] == w.sweeps[j] {
        SweepStaysSound(w, v, w.sweeps[j]);
      } else if j < |w.sweeps| {
        AdvanceKeepsSweep(w, j);
      }
    }
  }

  // A step changes no sweep but the one it advances, and starts at most one.
  lemma SweepsMoveAlone(w: World, step: Step, j: nat)
    requires j < |Next(w, step).sweeps|
    ensures var v := Next(w, step);
      && |w.sweeps| <= |v.sweeps|
      && (j < |w.sweeps| && v.sweeps[j] != w.sweeps[j] ==>
           && step == AdvanceSweep(j) && w.sweeps[j].remaining != [] && Answered(w, w.sweeps[j])
           && v == Advanced(w, j))
      && (j < |w.sweeps| ==> v.sweeps[j].session == w.sweeps[j].session && v.sweeps[j].snapshot == w.sweeps[j].snapshot)
      && (j >= |w.sweeps| ==>
           && step.StartSweep? && Enumerates(step.order, Targets(w, step.session))
           && v.sweeps[j] == Sweep(step.session, Targets(w, step.session), step.order, None, {}))
  {
  }

  lemma {:induction false} RunKeepsInv(w: World, steps: seq<Step>)
    requires Inv(w)
    ensures Inv(Run(w, steps))
    decreases |steps|
  {
    if steps != [] {
      RunKeepsInv(w, steps[..|steps| - 1]);
      StepKeepsInv(Run(w, steps[..|steps| - 1]), steps[|steps| - 1]);
    }
  }

  // ------------------------------------------------------------------ theorems

  // Every registered request is in exactly one place, and its channel has
  // received at most one value, whatever the interleaving.
  lemma {:induction false} Conservation(steps: seq<Step>)
    ensures var w := Run(INITIAL, steps);
      && w.registered.Keys == Pendings(w) + w.held.Keys + w.taken + Settled(w)
      && Pendings(w) !! w.held.Keys !! w.taken !! Settled(w)
      && (forall i, j :: 0 <= i < j < |w.sent| ==> w.sent[i].0 != w.sent[j].0)
  {
    RunKeepsInv(INITIAL, steps);
  }

  // The tool index never points at a request that is gone or has another key,
  // and a fresh number's id is never already in the table.
  lemma {:induction false} IndexesAgree(steps: seq<Step>, n: nat)
    ensures var w := Run(INITIAL, steps);
      && WellFormed(w.table)
      && (n in w.waiting ==> PermissionId(w.waiting[n].0, n) !in w.registered)
  {
    RunKeepsInv(INITIAL, steps);
    var w := Run(INITIAL, steps);
    if n in w.waiting {
      InsertIsFresh(w, n);
    }
  }

  // The registrations of a run that found their tool key free.
  ghost predicate KeysFree(w: World, steps: seq<Step>)
    decreases |steps|
  {
    steps == [] ||
    (var front, last := steps[..|steps| - 1], steps[|steps| - 1];
     var v := Run(w, front);
     KeysFree(w, front) && (last.Insert? && last.n in v.waiting ==> v.waiting[last.n] !in v.table.byTool))
  }

  ghost predicate StaysIndexed(steps: seq<Step>) {
    Indexed(Run(INITIAL, steps).table) && (steps == [] || StaysIndexed(steps[..|steps| - 1]))
  }

  lemma {:induction false} StaysIndexedThroughout(steps: seq<Step>)
    ensures StaysIndexed(steps) <==> forall n :: 0 <= n <= |steps| ==> Indexed(Run(INITIAL, steps[..n]).table)
  {
    assert steps[..|steps|] == steps;
    if steps != [] {
      var front := steps[..|steps| - 1];
      StaysIndexedThroughout(front);
      assert forall n :: 0 <= n <= |front| ==> front[..n] == steps[..n];
    }
  }

  lemma {:induction false} KeysFreeMeansIndexed(steps: seq<Step>)
    ensures KeysFree(INITIAL, steps) <==> StaysIndexed(steps)
  {
    if steps != [] {
      var front := steps[..|steps| - 1];
      KeysFreeMeansIndexed(front);
      RunKeepsInv(INITIAL, front);
      if StaysIndexed(front) { StepKeepsIndexed(Run(INITIAL, front), steps[|steps| - 1]); }
    }
  }

  // The two indexes are inverse to each other at every moment of a run exactly if
  // no registration of the run reuses a live tool key.
  lemma {:induction false} IndexesInverse(steps: seq<Step>)
    ensures KeysFree(INITIAL, steps) <==>
      forall n :: 0 <= n <= |steps| ==> Indexed(Run(INITIAL, steps[..n]).table)
    ensures KeysFree(INITIAL, steps) ==> NoDuplicateKeys(Run(INITIAL, steps).table)
  {
    KeysFreeMeansIndexed(steps);
    StaysIndexedThroughout(steps);
    RunKeepsInv(INITIAL, steps);
    MutualInverses(Run(INITIAL, steps).table);
  }

  lemma StepKeepsIndexed(w: World, step: Step)
    requires Inv(w) && Indexed(w.table)
    ensures Indexed(Next(w, step).table) <==>
      (step.Insert? && step.n in w.waiting ==> w.waiting[step.n] !in w.table.byTool)
  {
    match step {
      case Insert(n) =>
        if n in w.waiting {
          var p := Pending(PermissionId(w.waiting[n].0, n), w.waiting[n].0, w.waiting[n].1, n);
          InsertIsFresh(w, n);
          assert p.ToolKey() == w.waiting[n];
          RegisterKeepsIndexed(w.table, p);
        }
      case Take(sid, tool) =>
        if (sid, tool) in w.table.byTool {
          RemoveKeepsIndexed(w.table, w.table.byTool[(sid, tool)]);
          assert Next(w, step).table == WithoutId(w.table, w.table.byTool[(sid, tool)]);
        }
      case Resolve(rid, _) => if Key(rid) in w.table.byRequestId { RemoveKeepsIndexed(w.table, Key(rid)); }
      case Cancel(rid) => if Key(rid) in w.table.byRequestId { RemoveKeepsIndexed(w.table, Key(rid)); }
      case AdvanceSweep(i) =>
        if i < |w.sweeps| && w.sweeps[i].remaining != [] && w.sweeps[i].remaining[0] in w.table.byRequestId {
          RemoveKeepsIndexed(w.table, w.sweeps[i].remaining[0]);
        }
      case _ =>
    }
  }

  ghost predicate SameSweep(w: World, v: World, i: nat) {
    && i < |w.sweeps| && i < |v.sweeps|
    && v.sweeps[i].session == w.sweeps[i].session && v.sweeps[i].snapshot == w.sweeps[i].snapshot
  }

  lemma StepKeepsSnapshot(w: World, u: World, step: Step, i: nat)
    requires SameSweep(w, u, i)
    ensures SameSweep(w, Next(u, step), i)
  {
  }

  lemma {:induction false} SweepKeepsSnapshot(w: World, steps: seq<Step>, i: nat)
    requires i < |w.sweeps|
    ensures SameSweep(w, Run(w, steps), i)
    decreases |steps|
  {
    if steps != [] {
      SweepKeepsSnapshot(w, steps[..|steps| - 1], i);
      StepKeepsSnapshot(w, Run(w, steps[..|steps| - 1]), steps[|steps| - 1], i);
    }
  }

  // The request was registered for that session, if one is meant.
  ghost predicate OfThat(w: World, session: Option<string>, id: string) {
    id in w.registered && (session.Some? ==> w.registered[id].sessionId == session.value)
  }

  // A session cancel snapshots and then removes one id at a time, with any other
  // steps in between. When it returns, every request of its session that was
  // pending at the snapshot is gone, each one it removed itself was answered
  // deny, and it removed none that was not in the snapshot, so none of another
  // session.
  lemma {:induction false} CancelAllClears(before: seq<Step>, session: Option<string>, order: seq<string>,
      after: seq<Step>)
    requires Enumerates(order, Targets(Run(INITIAL, before), session))
    requires Finished(Run(Started(Run(INITIAL, before), session, order), after), |Run(INITIAL, before).sweeps|)
    ensures var w := Run(INITIAL, before);
      var v := Run(Started(w, session, order), after);
      && (forall id :: id in Pendings(w) && OfThat(w, session, id) ==> id !in Pendings(v))
      && (forall id :: id in v.sweeps[|w.sweeps|].removed ==>
           id in Pendings(w) && OfThat(w, session, id) && (id, Deny) in v.sent)
  {
    var w, i := Run(INITIAL, before), |Run(INITIAL, before).sweeps|;
    RunKeepsInv(INITIAL, before);
    StepKeepsInv(w, StartSweep(session, order));
    var start := Started(w, session, order);
    RunKeepsInv(start, after);
    SweepKeepsSnapshot(start, after, i);
    FinishedSweep(Run(start, after), i);
  }

  ghost function Started(w: World, session: Option<string>, order: seq<string>): (v: World)
    ensures Enumerates(order, Targets(w, session)) ==>
      |v.sweeps| == |w.sweeps| + 1 && v.sweeps[|w.sweeps|].snapshot == Targets(w, session)
  {
    Next(w, StartSweep(session, order))
  }

  lemma FinishedSweep(v: World, i: nat)
    requires Inv(v) && i < |v.sweeps| && Finished(v, i)
    ensures v.sweeps[i].snapshot !! Pendings(v) && v.sweeps[i].removed <= v.sweeps[i].snapshot
    ensures forall id :: id in v.sweeps[i].removed ==> (id, Deny) in v.sent
  {
    assert SweepSound(v, v.sweeps[i]);
  }

  ghost predicate Grants(step: Step, id: string, d: Decision) {
    (step.Resolve? && Key(step.rid) == id && step.decision == d) || step == ReplyTaken(id, d)
  }

  ghost predicate Granted(steps: seq<Step>, id: string, d: Decision) {
    exists i :: 0 <= i < |steps| && Grants(steps[i], id, d)
  }

  // A decision other than deny is on its way to a request, or has reached it.
  ghost predicate Carried(w: World, id: string, d: Decision) {
    d != Deny && ((id, d) in w.sent || (id in w.held && w.held[id] == d))
  }

  lemma NewlyCarried(w: World, step: Step, id: string, d: Decision)
    requires Carried(Next(w, step), id, d)
    ensures Carried(w, id, d) || Grants(step, id, d)
  {
  }

  // Anything but a deny reaches a waiting tool only because the client said so
  // for exactly that request, or because a caller that took it out replied.
  lemma {:induction false} OnlyClientGrants(steps: seq<Step>, id: string, d: Decision)
    requires Carried(Run(INITIAL, steps), id, d)
    ensures Granted(steps, id, d)
    decreases |steps|
  {
    if steps != [] {
      var front := steps[..|steps| - 1];
      NewlyCarried(Run(INITIAL, front), steps[|steps| - 1], id, d);
      if Carried(Run(INITIAL, front), id, d) {
        OnlyClientGrants(front, id, d);
        var i :| 0 <= i < |front| && Grants(front[i], id, d);
        assert Grants(steps[i], id, d);
      }
    }
  }
}
