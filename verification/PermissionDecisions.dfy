/** The decision a permission request ends with: over every run, what its channel
    receives is exactly what the one who settled it said. */
module PermissionDecisions {
  import opened Wrappers
  import opened RequestIds
  import opened Permissions
  import opened PermissionRuns

  // The decision that this step takes for request `id`, if it settles it: the
  // client's answer or cancellation, a cancel-all that comes to it, or the reply
  // of whoever took it out of the table.
  ghost function DecidesNow(w: World, step: Step, id: string): Option<Decision> {
    match step
    case Resolve(rid, d) => if Key(rid) == id && id in Pendings(w) then Some(d) else None
    case Cancel(rid) => if Key(rid) == id && id in Pendings(w) then Some(Deny) else None
    case AdvanceSweep(i) =>
      if i < |w.sweeps| && Comes(w, w.sweeps[i], id) && id in Pendings(w) then Some(Deny) else None
    case ReplyTaken(taken, d) => if taken == id && id in w.taken then Some(d) else None
    case _ => None
  }

  // The sweep has answered what it removed before and comes to `id` next.
  ghost predicate Comes(w: World, sweep: Sweep, id: string) {
    sweep.remaining != [] && sweep.remaining[0] == id && PermissionRuns.Answered(w, sweep)
  }

  // The decision first taken for the request in a run.
  ghost function Decided(steps: seq<Step>, id: string): Option<Decision> {
    if steps == [] then None
    else
      var before := Decided(steps[..|steps| - 1], id);
      if before.Some? then before else DecidesNow(Run(INITIAL, steps[..|steps| - 1]), steps[|steps| - 1], id)
  }

  // The decision is on its way to the channel, or has reached it.
  ghost predicate Bound(w: World, id: string, d: Decision) {
    (id in w.held && w.held[id] == d) || (id, d) in w.sent
  }

  ghost predicate BoundAs(w: World, id: string, decided: Option<Decision>) {
    forall d: Decision :: Bound(w, id, d) <==> decided == Some(d)
  }

  lemma RemovedBinds(w: World, removed: string, d: Decision, id: string, decided: Option<Decision>)
    requires Core(w) && BoundAs(w, id, decided)
    ensures BoundAs(Removed(w, removed, d), id,
                    if removed == id && id in Pendings(w) then Some(d) else decided)
  {
    var v := Removed(w, removed, d);
    if removed == id && id in Pendings(w) {
      forall other: Decision ensures Bound(v, id, other) <==> other == d {
        if (id, other) in w.sent { SentIsSettled(w, id, other); }
      }
    } else {
      forall other: Decision ensures Bound(v, id, other) <==> Bound(w, id, other) {}
    }
  }

  lemma SentIsSettled(w: World, id: string, d: Decision)
    requires (id, d) in w.sent
    ensures id in Settled(w)
  {
    var i :| 0 <= i < |w.sent| && w.sent[i] == (id, d);
    assert w.sent[i].0 == id;
  }

  lemma SendBinds(w: World, sent: string, id: string, decided: Option<Decision>)
    requires BoundAs(w, id, decided)
    ensures BoundAs(Next(w, Send(sent)), id, decided)
  {
    var v := Next(w, Send(sent));
    if sent in w.held { SentMore(w, v, sent, w.held[sent]); }
    forall d: Decision ensures Bound(v, id, d) <==> Bound(w, id, d) {}
  }

  lemma SentMore(w: World, v: World, id: string, d: Decision)
    requires v.sent == w.sent + [(id, d)]
    ensures forall other: string, e: Decision :: (other, e) in v.sent <==> (other, e) in w.sent || (other, e) == (id, d)
  {
  }

  lemma ReplyBinds(w: World, taken: string, d: Decision, id: string, decided: Option<Decision>)
    requires Core(w) && BoundAs(w, id, decided)
    ensures BoundAs(Next(w, ReplyTaken(taken, d)), id, if taken == id && id in w.taken then Some(d) else decided)
  {
    var v := Next(w, ReplyTaken(taken, d));
    if taken in w.taken {
      SentMore(w, v, taken, d);
      forall other: Decision
        ensures Bound(v, id, other) <==> if taken == id then other == d else Bound(w, id, other)
      {
        if taken == id && (id, other) in w.sent { SentIsSettled(w, id, other); }
      }
    }
  }

  lemma AsideBinds(w: World, v: World, id: string, decided: Option<Decision>)
    requires BoundAs(w, id, decided) && v.held == w.held && v.sent == w.sent
    ensures BoundAs(v, id, decided)
  {
    forall d: Decision ensures Bound(v, id, d) <==> Bound(w, id, d) {}
  }

  lemma AdvanceBinds(w: World, i: nat, id: string, decided: Option<Decision>)
    requires Core(w) && BoundAs(w, id, decided)
    ensures BoundAs(Next(w, AdvanceSweep(i)), id,
                    if DecidesNow(w, AdvanceSweep(i), id).Some? then Some(Deny) else decided)
  {
    if i < |w.sweeps| && w.sweeps[i].remaining != [] && PermissionRuns.Answered(w, w.sweeps[i]) {
      AdvancedBinds(w, i, id, decided);
    }
  }

  lemma AdvancedBinds(w: World, i: nat, id: string, decided: Option<Decision>)
    requires Core(w) && BoundAs(w, id, decided) && i < |w.sweeps| && w.sweeps[i].remaining != []
    ensures BoundAs(Advanced(w, i), id,
                    if w.sweeps[i].remaining[0] == id && id in Pendings(w) then Some(Deny) else decided)
  {
    var removed := w.sweeps[i].remaining[0];
    RemovedBinds(w, removed, Deny, id, decided);
    AsideBinds(Removed(w, removed, Deny), Advanced(w, i), id,
               if removed == id && id in Pendings(w) then Some(Deny) else decided);
  }

  lemma StepBinds(w: World, step: Step, id: string, decided: Option<Decision>)
    requires Core(w) && BoundAs(w, id, decided)
    ensures BoundAs(Next(w, step), id,
                    if DecidesNow(w, step, id).Some? then DecidesNow(w, step, id) else decided)
  {
    match step
    case Resolve(rid, d) => RemovedBinds(w, Key(rid), d, id, decided);
    case Cancel(rid) => RemovedBinds(w, Key(rid), Deny, id, decided);
    case AdvanceSweep(i) => AdvanceBinds(w, i, id, decided);
    case ReplyTaken(taken, d) => ReplyBinds(w, taken, d, id, decided);
    case Send(sent) => SendBinds(w, sent, id, decided);
    case _ => QuietBinds(w, step, id, decided);
  }

  lemma QuietBinds(w: World, step: Step, id: string, decided: Option<Decision>)
    requires BoundAs(w, id, decided) && (step.Number? || step.Insert? || step.Take? || step.StartSweep?)
    ensures BoundAs(Next(w, step), id, decided)
  {
    AsideBinds(w, Next(w, step), id, decided);
  }

  // What is settled is not settled again.
  lemma BoundIsSettled(w: World, step: Step, id: string, decided: Option<Decision>)
    requires Core(w) && BoundAs(w, id, decided) && decided.Some?
    ensures DecidesNow(w, step, id).None?
  {
    assert Bound(w, id, decided.value);
    if (id, decided.value) in w.sent { SentIsSettled(w, id, decided.value); }
  }

  // The decision a run takes for a request is the one its channel receives, or is
  // about to: whoever settled it first, nothing else is ever held or sent for it,
  // and for a request that nobody settled nothing is.
  lemma {:induction false} DecisionReachesTool(steps: seq<Step>, id: string, d: Decision)
    ensures var w := Run(INITIAL, steps);
      Decided(steps, id) == Some(d) <==> (id in w.held && w.held[id] == d) || (id, d) in w.sent
  {
    RunBinds(steps, id);
    assert Bound(Run(INITIAL, steps), id, d) <==> Decided(steps, id) == Some(d);
  }

  lemma {:induction false} RunBinds(steps: seq<Step>, id: string)
    ensures BoundAs(Run(INITIAL, steps), id, Decided(steps, id))
  {
    if steps != [] {
      var front, last := steps[..|steps| - 1], steps[|steps| - 1];
      RunBinds(front, id);
      RunKeepsInv(INITIAL, front);
      StepBinds(Run(INITIAL, front), last, id, Decided(front, id));
      if Decided(front, id).Some? { BoundIsSettled(Run(INITIAL, front), last, id, Decided(front, id)); }
    }
  }

  // Sending hands over what is held.
  lemma {:induction false} HeldIsSent(steps: seq<Step>, id: string)
    requires id in Run(INITIAL, steps).held
    ensures var w := Run(INITIAL, steps); var v := Run(INITIAL, steps + [Send(id)]);
      id !in v.held && v.sent == w.sent + [(id, w.held[id])] && Decided(steps, id) == Some(w.held[id])
  {
    assert (steps + [Send(id)])[..|steps|] == steps;
    DecisionReachesTool(steps, id, Run(INITIAL, steps).held[id]);
  }

  // ------------------------------------------------------------ what is asked

  // The session and tool of each request numbered in a run, in order.
  ghost function Asked(steps: seq<Step>): seq<(string, string)> {
    if steps == [] then []
    else
      var last := steps[|steps| - 1];
      Asked(steps[..|steps| - 1]) + (if last.Number? then [(last.sessionId, last.toolUseId)] else [])
  }

  // The numbers whose insertion was taken.
  ghost function Inserted(steps: seq<Step>): set<nat> {
    if steps == [] then {}
    else
      var front, last := steps[..|steps| - 1], steps[|steps| - 1];
      Inserted(front) + (if last.Insert? && 1 <= last.n <= |Asked(front)| then {last.n} else {})
  }

  ghost predicate AsAsked(asked: seq<(string, string)>, inserted: set<nat>, w: World) {
    && w.next == |asked|
    && (forall n: nat :: n in w.waiting <==> 1 <= n <= |asked| && n !in inserted)
    && (forall n: nat :: n in w.waiting && 1 <= n <= |asked| ==> w.waiting[n] == asked[n - 1])
    && (forall n: nat :: n in inserted ==> 1 <= n <= |asked| && RegisteredAs(w, n, asked[n - 1]))
  }

  ghost predicate RegisteredAs(w: World, n: nat, asked: (string, string)) {
    var id := PermissionId(asked.0, n);
    id in w.registered && w.registered[id] == Pending(id, asked.0, asked.1, n)
  }

  lemma NumberAsAsked(asked: seq<(string, string)>, inserted: set<nat>, w: World, sid: string, tool: string)
    requires AsAsked(asked, inserted, w)
    ensures AsAsked(asked + [(sid, tool)], inserted, Next(w, Step.Number(sid, tool)))
  {
    var v := Next(w, Step.Number(sid, tool));
    forall n: nat | n in inserted ensures RegisteredAs(v, n, (asked + [(sid, tool)])[n - 1]) {
      assert RegisteredAs(w, n, asked[n - 1]);
    }
  }

  lemma InsertAsAsked(asked: seq<(string, string)>, inserted: set<nat>, w: World, m: nat)
    requires Core(w) && AsAsked(asked, inserted, w)
    ensures AsAsked(asked, inserted + (if 1 <= m <= |asked| then {m} else {}), Next(w, Insert(m)))
  {
    if m in w.waiting {
      InsertRegisters(w, m);
      OneMoreAsAsked(asked, inserted, w, Next(w, Insert(m)), m);
    }
  }

  lemma OneMoreAsAsked(asked: seq<(string, string)>, inserted: set<nat>, w: World, v: World, m: nat)
    requires AsAsked(asked, inserted, w) && m in w.waiting && v.next == w.next && v.waiting == w.waiting - {m}
    requires RegisteredAs(v, m, w.waiting[m])
    requires forall id :: id in w.registered ==> id in v.registered && v.registered[id] == w.registered[id]
    ensures AsAsked(asked, inserted + {m}, v)
  {
    forall n: nat | n in inserted + {m} ensures RegisteredAs(v, n, asked[n - 1]) {
      if n != m { assert RegisteredAs(w, n, asked[n - 1]); }
    }
  }

  lemma InsertRegisters(w: World, m: nat)
    requires Core(w) && m in w.waiting
    ensures var v := Next(w, Insert(m));
      && v.next == w.next && v.waiting == w.waiting - {m} && RegisteredAs(v, m, w.waiting[m])
      && forall id :: id in w.registered ==> id in v.registered && v.registered[id] == w.registered[id]
  {
    InsertIsFresh(w, m);
  }

  lemma OtherAsAsked(asked: seq<(string, string)>, inserted: set<nat>, w: World, step: Step)
    requires AsAsked(asked, inserted, w) && !step.Number? && !step.Insert?
    ensures AsAsked(asked, inserted, Next(w, step))
  {
    var v := Next(w, step);
    SameAsAsked(w, step);
    forall n: nat | n in inserted ensures RegisteredAs(v, n, asked[n - 1]) {
      assert RegisteredAs(w, n, asked[n - 1]);
    }
  }

  lemma SameAsAsked(w: World, step: Step)
    requires !step.Number? && !step.Insert?
    ensures var v := Next(w, step); v.next == w.next && v.waiting == w.waiting && v.registered == w.registered
  {
    if step.AdvanceSweep? || step.StartSweep? { SweepAsAsked(w, step); }
  }

  lemma SweepAsAsked(w: World, step: Step)
    requires step.AdvanceSweep? || step.StartSweep?
    ensures var v := Next(w, step); v.next == w.next && v.waiting == w.waiting && v.registered == w.registered
  {
    if step.AdvanceSweep? && step.i < |w.sweeps| && w.sweeps[step.i].remaining != [] {
      assert Advanced(w, step.i).registered == w.registered;
    }
  }

  lemma {:induction false} RunAsAsked(steps: seq<Step>)
    ensures AsAsked(Asked(steps), Inserted(steps), Run(INITIAL, steps))
  {
    if steps != [] {
      var front, last := steps[..|steps| - 1], steps[|steps| - 1];
      var w := Run(INITIAL, front);
      RunAsAsked(front);
      RunKeepsInv(INITIAL, front);
      StepAsAsked(Asked(front), Inserted(front), w, last);
    }
  }

  lemma StepAsAsked(asked: seq<(string, string)>, inserted: set<nat>, w: World, step: Step)
    requires Core(w) && AsAsked(asked, inserted, w)
    ensures AsAsked(asked + (if step.Number? then [(step.sessionId, step.toolUseId)] else []),
                    inserted + (if step.Insert? && 1 <= step.n <= |asked| then {step.n} else {}), Next(w, step))
  {
    match step
    case Number(sid, tool) => NumberAsAsked(asked, inserted, w, sid, tool); assert inserted + {} == inserted;
    case Insert(n) => InsertAsAsked(asked, inserted, w, n); assert asked + [] == asked;
    case _ => OtherAsAsked(asked, inserted, w, step); assert asked + [] == asked && inserted + {} == inserted;
  }

  // The n-th request of a run, once inserted, is registered for good under the id
  // of its number and with the session and tool that asked.
  lemma {:induction false} RegisteredAsAsked(steps: seq<Step>, n: nat)
    requires n in Inserted(steps)
    ensures 1 <= n <= |Asked(steps)|
    ensures var asked, w := Asked(steps)[n - 1], Run(INITIAL, steps); var id := PermissionId(asked.0, n);
      id in w.registered && w.registered[id] == Pending(id, asked.0, asked.1, n)
  {
    RunAsAsked(steps);
    assert RegisteredAs(Run(INITIAL, steps), n, Asked(steps)[n - 1]);
  }

  // Taking by session and tool hands out the pending request that asked with
  // exactly these, if the tool index has one, and nothing otherwise.
  lemma {:induction false} TakeHandsOut(steps: seq<Step>, sid: string, tool: string)
    ensures var w, v := Run(INITIAL, steps), Run(INITIAL, steps + [Take(sid, tool)]);
      if (sid, tool) in w.table.byTool then
        var id := w.table.byTool[(sid, tool)];
        && id in Pendings(w) && id in w.registered
        && w.registered[id].sessionId == sid && w.registered[id].toolUseId == tool
        && v.taken == w.taken + {id} && Pendings(v) == Pendings(w) - {id}
      else v == w
  {
    RunKeepsInv(INITIAL, steps);
    assert (steps + [Take(sid, tool)])[..|steps|] == steps;
  }
}
