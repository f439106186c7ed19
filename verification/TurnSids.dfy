/** Turn exclusivity by session id, the name clients use. Opening an id anew makes
    a new session object, so one live task per object is not yet one per id. */
module TurnSids {
  import opened Turns
  import opened TurnExclusivity
  import opened TurnOwnership
  import TurnAnswers
  import TurnBreaks

  // The turn's session object carries this id.
  predicate Under(w: World, t: nat, sid: string) {
    t < |w.turns| && w.turns[t].session < |w.sessions| && w.sessions[w.turns[t].session].sid == sid
  }

  predicate AliveUnder(w: World, t: nat, sid: string) { Under(w, t, sid) && Alive(w.turns[t].phase) }

  predicate LiveUnder(w: World, t: nat, sid: string) { Under(w, t, sid) && Live(w.turns[t].phase) }

  // No session id has two live tasks.
  ghost predicate SidExclusive(w: World) {
    forall sid: string, t: nat, u: nat :: LiveUnder(w, t, sid) && LiveUnder(w, u, sid) ==> t == u
  }

  // An id is opened while a task of it is unfinished, on whatever object.
  ghost predicate OpensBusy(w: World, step: Step) {
    step.Handle? && step.action.Open? && Next(w, step) != w && exists t: nat :: AliveUnder(w, t, step.action.sid)
  }

  // A run that opens no id while a task of it is unfinished.
  ghost predicate Orderly(w: World, steps: seq<Step>)
    decreases |steps|
  {
    steps == []
    || (Orderly(w, steps[..|steps| - 1]) && !OpensBusy(Run(w, steps[..|steps| - 1]), steps[|steps| - 1]))
  }

  // ------------------------------------------------------------------ invariant

  ghost predicate AtMostOneUnder(w: World, sid: string) {
    forall t: nat, u: nat :: AliveUnder(w, t, sid) && AliveUnder(w, u, sid) ==> t == u
  }

  // All unfinished tasks of the id are on object `s`.
  ghost predicate AllOn(w: World, sid: string, s: nat) {
    forall t: nat :: AliveUnder(w, t, sid) ==> w.turns[t].session == s
  }

  // The slot is claimed by a prompt that was refused, and nothing is left that
  // would clear it.
  ghost predicate Sealed(w: World, s: nat) {
    SlotOf(w, s).Claimed? && NoneAlive(w, s) && forall t: nat :: !DroppedOn(w, t, s)
  }

  // The registered object is safe by itself, and accepts no prompt while a task
  // of the id is unfinished on another.
  ghost predicate SidSafe(w: World, sid: string) {
    sid in w.directory ==>
      Safe(w, w.directory[sid]) && (AllOn(w, sid, w.directory[sid]) || Sealed(w, w.directory[sid]))
  }

  ghost predicate Guarded(w: World, sid: string)
    requires sid in w.directory
  {
    AllOn(w, sid, w.directory[sid]) || Sealed(w, w.directory[sid]) || Doomed(w, w.directory[sid])
  }

  ghost predicate AllGuarded(w: World) {
    (forall sid :: AtMostOneUnder(w, sid)) && forall sid :: sid in w.directory ==> Guarded(w, sid)
  }

  ghost predicate SameSids(w: World, v: World) {
    |w.sessions| <= |v.sessions| && forall s :: 0 <= s < |w.sessions| ==> v.sessions[s].sid == w.sessions[s].sid
  }

  lemma ShrinksSealed(w: World, v: World, s: nat)
    requires Shrinks(w, v) && Sealed(w, s)
    ensures Sealed(v, s)
  {
    forall t: nat ensures !AliveOn(v, t, s) && !DroppedOn(v, t, s) {
      assert !AliveOn(w, t, s) && !DroppedOn(w, t, s);
    }
  }

  lemma ShrinksGuarded(w: World, v: World)
    requires Basic(w) && AllGuarded(w) && Shrinks(w, v) && SameSids(w, v)
    requires forall sid :: sid in v.directory ==> sid in w.directory && v.directory[sid] == w.directory[sid]
    requires forall s :: Doomed(w, s) ==> Doomed(v, s) || forall sid :: sid in v.directory ==> v.directory[sid] != s
    ensures AllGuarded(v)
  {
    forall t: nat, sid | AliveUnder(v, t, sid) ensures AliveUnder(w, t, sid) {}
    forall sid ensures AtMostOneUnder(v, sid) { assert AtMostOneUnder(w, sid); }
    forall sid | sid in v.directory ensures Guarded(v, sid) {
      assert Guarded(w, sid);
      if Sealed(w, w.directory[sid]) { ShrinksSealed(w, v, w.directory[sid]); }
    }
  }

  lemma ClearsSealed(w: World, v: World, t: nat, s: nat)
    requires Clears(w, v, t) && (Alive(w.turns[t].phase) || w.turns[t].phase.Dropped?) && Sealed(w, s)
    ensures Sealed(v, s)
  {
    assert s != w.turns[t].session by { assert !AliveOn(w, t, s) && !DroppedOn(w, t, s); }
    forall u: nat ensures !AliveOn(v, u, s) && !DroppedOn(v, u, s) {
      assert !AliveOn(w, u, s) && !DroppedOn(w, u, s);
    }
  }

  lemma TaskGuarded(w: World, step: Step, t: nat)
    requires Basic(w) && AllGuarded(w) && t < |w.turns|
    ensures AllGuarded(TaskStep(w, step, t))
  {
    var v := TaskStep(w, step, t);
    TaskShape(w, step, t);
    if (step.Leave? && w.turns[t].phase.Leaving?) || (step.Wake? && w.turns[t].phase.Dropped?) {
      assert Clears(w, v, t);
      ClearsGuarded(w, v, t);
    } else {
      TaskMidway(w, step, t);
      ShrinksGuarded(w, v);
    }
  }

  lemma ClearsGuarded(w: World, v: World, t: nat)
    requires AllGuarded(w) && Clears(w, v, t) && SameSids(w, v) && v.directory == w.directory && v.reader == w.reader
    requires Alive(w.turns[t].phase) || w.turns[t].phase.Dropped?
    ensures AllGuarded(v)
  {
    forall u: nat, sid | AliveUnder(v, u, sid) ensures AliveUnder(w, u, sid) {}
    forall sid ensures AtMostOneUnder(v, sid) { assert AtMostOneUnder(w, sid); }
    forall sid | sid in v.directory ensures Guarded(v, sid) {
      assert Guarded(w, sid);
      if Sealed(w, w.directory[sid]) { ClearsSealed(w, v, t, w.directory[sid]); }
    }
  }

  // A claim on the registered object of an id: nothing of the id was unfinished.
  lemma ClaimGuarded(w: World, v: World, sid: string)
    requires Basic(w) && AllSafe(w) && AllGuarded(w) && sid in w.directory && Claims(w, v, w.directory[sid])
    requires forall s :: !Doomed(w, s)
    ensures AllGuarded(v)
  {
    var c, n := w.directory[sid], |w.turns|;
    assert Safe(w, c) && Guarded(w, sid) && AllOn(w, sid, c) && Healthy(w, c) && NoneAlive(w, c);
    forall t: nat ensures !AliveUnder(w, t, sid) { assert !AliveOn(w, t, c); }
    forall t: nat, id ensures AliveUnder(v, t, id) <==> AliveUnder(w, t, id) || (t == n && id == sid) {}
    forall id ensures AtMostOneUnder(v, id) { assert AtMostOneUnder(w, id); }
    forall id | id in v.directory ensures Guarded(v, id) {
      assert Guarded(w, id);
      if Sealed(w, w.directory[id]) { ClaimSealed(w, v, c, w.directory[id]); }
    }
  }

  lemma ClaimSealed(w: World, v: World, c: nat, s: nat)
    requires Claims(w, v, c) && Sealed(w, s)
    ensures Sealed(v, s)
  {
    forall u: nat ensures !AliveOn(v, u, s) && !DroppedOn(v, u, s) {
      assert !AliveOn(w, u, s) && !DroppedOn(w, u, s);
    }
  }

  // An id none of whose tasks is unfinished is opened.
  lemma OpenGuarded(w: World, v: World, sid: string)
    requires Basic(w) && AllGuarded(w) && Opens(w, v, sid)
    requires (forall s :: !Doomed(w, s)) && forall t: nat :: !AliveUnder(w, t, sid)
    ensures AllGuarded(v)
  {
    forall t: nat, id ensures AliveUnder(v, t, id) <==> AliveUnder(w, t, id) {}
    forall id ensures AtMostOneUnder(v, id) { assert AtMostOneUnder(w, id); }
    forall id | id in v.directory ensures Guarded(v, id) {
      if id != sid {
        assert Guarded(w, id);
        if Sealed(w, w.directory[id]) { OpenSealed(w, v, sid, w.directory[id]); }
      }
    }
  }

  lemma OpenSealed(w: World, v: World, sid: string, s: nat)
    requires Opens(w, v, sid) && Sealed(w, s)
    ensures Sealed(v, s)
  {
    forall u: nat ensures !AliveOn(v, u, s) && !DroppedOn(v, u, s) {
      assert !AliveOn(w, u, s) && !DroppedOn(w, u, s);
    }
  }

  lemma HandleGuarded(w: World, action: Action)
    requires Basic(w) && AllSafe(w) && AllGuarded(w) && w.reader.Busy? && !OpensBusy(w, Handle(action))
    ensures AllGuarded(HandleStep(w, action))
  {
    var v := HandleStep(w, action);
    if v != w {
      HandleShape(w, action);
      if action.Prompt? && action.sid in w.directory && Claims(w, v, w.directory[action.sid]) {
        ClaimGuarded(w, v, action.sid);
      } else if action.Open? {
        assert Next(w, Handle(action)) == v;
        OpenGuarded(w, v, action.sid);
      } else {
        assert Shrinks(w, v) && SameSids(w, v);
        ShrinksGuarded(w, v);
      }
    }
  }

  lemma ProceedGuarded(w: World)
    requires Basic(w) && AllGuarded(w) && w.reader.Busy?
    ensures AllGuarded(ProceedStep(w))
  {
    if w.reader.work.ConvertingPrompt? {
      ConvertShape(w);
    } else if Closing(w.reader.work) {
      CloseShape(w);
    } else {
      ProceedShape(w);
    }
    ShrinksGuarded(w, ProceedStep(w));
  }

  lemma TimeOutGuarded(w: World)
    requires Basic(w) && AllGuarded(w) && w.reader.Busy? && w.reader.work.ClosingWait?
    ensures AllGuarded(TimeOutStep(w))
  {
    var v, c := TimeOutStep(w), w.reader.work.session;
    TimeOutShape(w);
    forall t: nat, sid ensures AliveUnder(v, t, sid) <==> AliveUnder(w, t, sid) {}
    forall sid ensures AtMostOneUnder(v, sid) { assert AtMostOneUnder(w, sid); }
    forall sid | sid in v.directory ensures Guarded(v, sid) {
      assert Guarded(w, sid);
      if w.directory[sid] != c && Sealed(w, w.directory[sid]) { TimeOutSealed(w, v, c, w.directory[sid]); }
    }
  }

  lemma TimeOutSealed(w: World, v: World, c: nat, s: nat)
    requires v.turns == w.turns && v.sessions == SetSlot(w, c, Free).sessions && s != c && Sealed(w, s)
    ensures Sealed(v, s)
  {
    forall u: nat ensures !AliveOn(v, u, s) && !DroppedOn(v, u, s) {
      assert !AliveOn(w, u, s) && !DroppedOn(w, u, s);
    }
  }

  lemma SameGuarded(w: World, v: World)
    requires Basic(w) && AllGuarded(w) && SameSessions(w, v) && (w.reader.Busy? ==> w.reader.work.NoWork?)
    ensures AllGuarded(v)
  {
    ShrinksGuarded(w, v);
  }

  lemma StartGuarded(w: World)
    requires Basic(w) && AllGuarded(w) && w.reader.Starting?
    ensures AllGuarded(StartStep(w))
  {
    StartShape(w);
    ShrinksGuarded(w, StartStep(w));
  }

  lemma ReaderGuarded(w: World, step: Step)
    requires Basic(w) && AllSafe(w) && AllGuarded(w) && !IsTaskStep(step)
    requires !Withdraws(w, step) && !OpensBusy(w, step)
    ensures AllGuarded(ReaderStep(w, step))
  {
    match w.reader
    case Ready => if step.Read? { ReadShape(w, step.line); SameGuarded(w, ReaderStep(w, step)); }
    case Starting(_, _) => if step.Start? { StartGuarded(w); }
    case Busy(_, _, _, _, _, _, _) =>
      match step {
        case Handle(action) => HandleGuarded(w, action);
        case Proceed => ProceedGuarded(w);
        case TimeOut => if w.reader.work.ClosingWait? { TimeOutGuarded(w); }
        case Resolve => if Handled(w.reader) { SameGuarded(w, ResolveStep(w)); }
        case SendReply => if Handled(w.reader) { SameGuarded(w, ReplyStep(w)); }
        case _ =>
      }
  }

  lemma {:induction false} OrderlyKeepsGuarded(w: World, steps: seq<Step>)
    requires Basic(w) && AllSafe(w) && AllGuarded(w) && Calm(w, steps) && Orderly(w, steps)
    ensures AllGuarded(Run(w, steps))
    decreases |steps|
  {
    if steps != [] {
      var front, last := steps[..|steps| - 1], steps[|steps| - 1];
      var v := Run(w, front);
      OrderlyKeepsGuarded(w, front);
      RunKeepsBasic(w, front);
      CalmKeepsSafe(w, front);
      if !IsTaskStep(last) {
        ReaderGuarded(v, last);
      } else if last.t < |v.turns| {
        TaskGuarded(v, last, last.t);
      }
    }
  }

  lemma GuardedMeansExclusive(w: World)
    requires AllGuarded(w)
    ensures SidExclusive(w)
  {
    forall sid: string, t: nat, u: nat | LiveUnder(w, t, sid) && LiveUnder(w, u, sid) ensures t == u {
      assert AtMostOneUnder(w, sid) && AliveUnder(w, t, sid) && AliveUnder(w, u, sid);
    }
  }

  // ------------------------------------------------------------------- theorems

  // Without a prompt cancelled before its start, and without an id opened while a
  // task of it is unfinished, no session id ever has two live tasks.
  lemma {:induction false} OrderlyRunsExclusive(steps: seq<Step>)
    requires Calm(INITIAL, steps) && Orderly(INITIAL, steps)
    ensures SidExclusive(Run(INITIAL, steps))
  {
    OrderlyKeepsGuarded(INITIAL, steps);
    GuardedMeansExclusive(Run(INITIAL, steps));
  }

  // If no close gives up either, a live task is the only one of its id and holds
  // its session's slot.
  lemma {:induction false} UnfinishedAloneUnderId(steps: seq<Step>, t: nat, sid: string)
    requires Calm(INITIAL, steps) && Unforced(INITIAL, steps) && Orderly(INITIAL, steps)
    requires LiveUnder(Run(INITIAL, steps), t, sid)
    ensures Holds(Run(INITIAL, steps), t)
    ensures forall u: nat :: LiveUnder(Run(INITIAL, steps), u, sid) ==> u == t
  {
    UnfinishedHoldsSlot(steps, t);
    OrderlyRunsExclusive(steps);
  }

  lemma {:induction false} OrdinaryIsOrderly(w: World, steps: seq<Step>)
    requires TurnBreaks.AllOrdinary(steps)
    ensures Orderly(w, steps)
    decreases |steps|
  {
    if steps != [] {
      assert TurnBreaks.Ordinary(steps[|steps| - 1]);
      OrdinaryIsOrderly(w, steps[..|steps| - 1]);
    }
  }

  lemma ExclusiveFollows(w: World)
    requires Basic(w) && SidExclusive(w)
    ensures Exclusive(w)
  {
    forall s: nat, t: nat, u: nat | LiveOn(w, t, s) && LiveOn(w, u, s) ensures t == u {
      assert LiveUnder(w, t, w.sessions[s].sid) && LiveUnder(w, u, w.sessions[s].sid);
    }
  }

  // A task of the id lives on an older object, and the registered one is free.
  lemma OlderBesideFree(w: World, sid: string, t: nat) returns (steps: seq<Step>)
    requires Basic(w) && TurnBreaks.FreshChannels(w) && w.reader.Ready? && sid in w.directory
    requires SlotOf(w, w.directory[sid]).Free? && LiveUnder(w, t, sid)
    ensures TurnBreaks.AllOrdinary(steps) && Calm(w, steps) && !SidExclusive(Run(w, steps))
  {
    steps := TurnBreaks.PromptAccepted(w, sid);
    var v := Run(w, steps);
    assert LiveUnder(v, t, sid) && LiveUnder(v, |w.turns|, sid);
  }

  // Or a cancelled task is still to wake and free it.
  lemma OlderBesideDropped(w: World, sid: string, d: nat, t: nat) returns (steps: seq<Step>)
    requires Basic(w) && TurnBreaks.FreshChannels(w) && w.reader.Ready? && sid in w.directory
    requires DroppedOn(w, d, w.directory[sid]) && LiveUnder(w, t, sid)
    ensures TurnBreaks.AllOrdinary(steps) && Calm(w, steps) && !SidExclusive(Run(w, steps))
  {
    TurnBreaks.DroppedWakes(w, d, w.directory[sid]);
    RunKeepsBasic(w, [Wake(d)]);
    var v := Run(w, [Wake(d)]);
    assert LiveUnder(v, t, sid);
    var rest := OlderBesideFree(v, sid, t);
    RunAppend(w, [Wake(d)], rest);
    TurnBreaks.CalmAppend(w, [Wake(d)], rest);
    steps := [Wake(d)] + rest;
  }

  lemma SidUnsafeBreaks(w: World, sid: string) returns (steps: seq<Step>)
    requires Basic(w) && TurnBreaks.FreshChannels(w) && w.reader.Ready? && sid in w.directory
    requires SidExclusive(w) && !SidSafe(w, sid)
    ensures TurnBreaks.AllOrdinary(steps) && Calm(w, steps) && !SidExclusive(Run(w, steps))
  {
    var s := w.directory[sid];
    ExclusiveFollows(w);
    if !Safe(w, s) {
      steps := TurnBreaks.UnsafeBreaks(w, sid);
      RunKeepsBasic(w, steps);
      if SidExclusive(Run(w, steps)) { ExclusiveFollows(Run(w, steps)); }
    } else {
      var t: nat :| AliveUnder(w, t, sid) && w.turns[t].session != s;
      TurnBreaks.AliveIsLive(w, t, w.turns[t].session);
      forall u: nat ensures !AliveOn(w, u, s) { OnlyOlder(w, sid, t, u); }
      if SlotOf(w, s).Free? {
        steps := OlderBesideFree(w, sid, t);
      } else {
        var d: nat :| DroppedOn(w, d, s);
        steps := OlderBesideDropped(w, sid, d, t);
      }
    }
  }

  lemma OnlyOlder(w: World, sid: string, t: nat, u: nat)
    requires Basic(w) && w.reader.Ready? && sid in w.directory && SidExclusive(w)
    requires LiveUnder(w, t, sid) && w.turns[t].session != w.directory[sid]
    ensures !AliveOn(w, u, w.directory[sid])
  {
    assert LiveUnder(w, u, sid) ==> u == t;
    if AliveOn(w, u, w.directory[sid]) { TurnBreaks.AliveIsLive(w, u, w.directory[sid]); }
  }

  lemma QuietGuarded(w: World)
    requires Basic(w) && w.reader.Ready? && SidExclusive(w) && forall sid :: SidSafe(w, sid)
    ensures AllSafe(w) && AllGuarded(w)
  {
    forall t: nat, s: nat | AliveOn(w, t, s) ensures LiveOn(w, t, s) { TurnBreaks.AliveIsLive(w, t, s); }
    forall t: nat, sid | AliveUnder(w, t, sid) ensures LiveUnder(w, t, sid) {
      TurnBreaks.AliveIsLive(w, t, w.turns[t].session);
    }
    ExclusiveFollows(w);
    forall sid | sid in w.directory ensures Safe(w, w.directory[sid]) && Guarded(w, sid) { assert SidSafe(w, sid); }
  }

  // From a quiet state reached by any run, every continuation without a further
  // cancel-before-start, and without opening an id that has an unfinished task,
  // keeps each id to one live task exactly if every registered id is safe.
  lemma {:induction false} SidExclusiveExactlyWhenSafe(before: seq<Step>, w: World)
    requires w == Run(INITIAL, before) && w.reader.Ready? && SidExclusive(w)
    ensures (forall steps :: Calm(w, steps) && Orderly(w, steps) ==> SidExclusive(Run(w, steps))) <==>
      (forall sid :: SidSafe(w, sid))
  {
    RunKeepsBasic(INITIAL, before);
    TurnAnswers.RunKeepsChannels(before);
    if sid :| !SidSafe(w, sid) {
      var steps := SidUnsafeBreaks(w, sid);
      OrdinaryIsOrderly(w, steps);
    } else {
      QuietGuarded(w);
      forall steps | Calm(w, steps) && Orderly(w, steps) ensures SidExclusive(Run(w, steps)) {
        OrderlyKeepsGuarded(w, steps);
        GuardedMeansExclusive(Run(w, steps));
      }
    }
  }

  // Opening another id changes nothing for this one.
  lemma OpenKeepsOtherSafe(w: World, v: World, sid: string, id: string)
    requires Basic(w) && TurnBreaks.Reopened(w, v, sid) && id != sid
    ensures SidSafe(v, id) <==> SidSafe(w, id)
  {
    if id in w.directory {
      var s := w.directory[id];
      forall t: nat ensures AliveOn(v, t, s) <==> AliveOn(w, t, s) {}
      forall t: nat ensures DroppedOn(v, t, s) <==> DroppedOn(w, t, s) {}
      forall t: nat ensures AliveUnder(v, t, id) <==> AliveUnder(w, t, id) {}
      assert SlotOf(v, s) == SlotOf(w, s);
      assert AtMostOneAlive(v, s) <==> AtMostOneAlive(w, s);
      assert Healthy(v, s) <==> Healthy(w, s);
      assert forall d: nat :: Blocked(v, s, d) <==> Blocked(w, s, d);
    }
  }

  lemma OpenedSafeExactly(w: World, v: World, sid: string)
    requires Basic(w) && w.reader.Ready? && TurnBreaks.Reopened(w, v, sid)
    ensures SidSafe(v, sid) <==> forall t: nat :: !LiveUnder(w, t, sid)
  {
    var s := |w.sessions|;
    forall t: nat ensures !AliveOn(v, t, s) && !DroppedOn(v, t, s) {}
    assert Healthy(v, s) && SlotOf(v, s).Free?;
    forall t: nat ensures AliveUnder(v, t, sid) <==> LiveUnder(w, t, sid) {
      if AliveUnder(w, t, sid) { TurnBreaks.AliveIsLive(w, t, w.turns[t].session); }
    }
  }

  // Opening an id, from a quiet state in which every registered id is safe, keeps
  // what follows to one live task per id exactly if no task of that id was
  // unfinished, on any object, registered, displaced or force-closed.
  lemma {:induction false} OpenKeepsExclusiveExactlyWhenIdle(before: seq<Step>, w: World, sid: string)
    returns (open: seq<Step>)
    requires w == Run(INITIAL, before) && w.reader.Ready? && SidExclusive(w) && forall id :: SidSafe(w, id)
    ensures TurnBreaks.Patient(open) && Calm(w, open) && TurnBreaks.Reopened(w, Run(w, open), sid)
    ensures var v := Run(w, open);
      (forall steps :: Calm(v, steps) && Orderly(v, steps) ==> SidExclusive(Run(v, steps))) <==>
      (forall t: nat :: !LiveUnder(w, t, sid))
  {
    RunKeepsBasic(INITIAL, before);
    open := TurnBreaks.OpenServed(w, sid);
    var v := Run(w, open);
    RunAppend(INITIAL, before, open);
    forall id: string, t: nat ensures LiveUnder(v, t, id) <==> LiveUnder(w, t, id) {}
    OpenedSafeExactly(w, v, sid);
    forall id | id != sid ensures SidSafe(v, id) { OpenKeepsOtherSafe(w, v, sid, id); }
    SidExclusiveExactlyWhenSafe(before + open, v);
  }

  // `session/cancel` marks and aborts only the registered object: a task of the
  // id on an older one is out of its reach.
  lemma CancelMissesOlder(w: World, sid: string, t: nat)
    requires Registry(w) && w.reader.Busy? && sid in w.directory && HandleStep(w, CancelSession(sid)) != w
    requires Under(w, t, sid) && w.turns[t].session != w.directory[sid]
    ensures var marked := Next(w, Handle(CancelSession(sid))); var v := Next(marked, Proceed);
      && marked.sessions[w.directory[sid]].slot == w.sessions[w.directory[sid]].slot.Marked()
      && v.sessions[w.directory[sid]].aborted
      && |v.sessions| == |w.sessions| && v.sessions[w.turns[t].session] == w.sessions[w.turns[t].session]
  {
    HandleShape(w, CancelSession(sid));
    var marked := HandleStep(w, CancelSession(sid));
    assert Next(marked, Proceed) == Working(SetAborted(marked, w.directory[sid], true), NoWork);
  }

  // A task at work under an id that is then opened anew.
  lemma PromptThenReopen() returns (steps: seq<Step>)
    ensures TurnBreaks.Patient(steps) && Calm(INITIAL, steps)
    ensures var w := Run(INITIAL, steps);
      && w.reader.Ready? && TurnBreaks.FreshChannels(w) && LiveUnder(w, 0, "s")
      && w.directory == map["s" := 1] && SlotOf(w, 1).Free?
  {
    var a := TurnBreaks.OpenSession();
    var u := Run(INITIAL, a);
    var b := TurnBreaks.PromptAccepted(u, "s");
    var c := TurnBreaks.OpenServed(Run(u, b), "s");
    RunAppend(INITIAL, a, b);
    RunAppend(INITIAL, a + b, c);
    TurnBreaks.CalmAppend(INITIAL, a, b);
    TurnBreaks.CalmAppend(INITIAL, a + b, c);
    OrdinaryIsPatient(b);
    steps := a + b + c;
  }

  // Two live tasks under one id, with neither a cancel-before-start nor a forced
  // close: open, prompt, open the id anew, prompt.
  lemma ReopenBreaks() returns (steps: seq<Step>)
    ensures TurnBreaks.Patient(steps) && Calm(INITIAL, steps)
    ensures Exclusive(Run(INITIAL, steps)) && !SidExclusive(Run(INITIAL, steps))
  {
    var front := PromptThenReopen();
    RunKeepsBasic(INITIAL, front);
    var rest := OlderBesideFree(Run(INITIAL, front), "s", 0);
    RunAppend(INITIAL, front, rest);
    TurnBreaks.CalmAppend(INITIAL, front, rest);
    OrdinaryIsPatient(rest);
    steps := front + rest;
    CalmRunsExclusive(steps);
  }

  lemma OrdinaryIsPatient(steps: seq<Step>)
    requires TurnBreaks.AllOrdinary(steps)
    ensures TurnBreaks.Patient(steps)
  {
    assert forall i :: 0 <= i < |steps| ==> TurnBreaks.Ordinary(steps[i]);
  }
}
