/** Nobody is told "cancelled" for nothing: a task tells it only if the client
    cancelled or closed that very session after the turn's claim. */
module TurnAims {
  import opened Turns
  import opened TurnExclusivity
  import opened TurnCancellation
  import opened TurnReasons
  import TurnAnswers
  import U = UpdateMapper

  // The reader takes up a `session/cancel`, a close or a delete of session `s`.
  predicate Aims(w: World, step: Step, s: nat) {
    && w.reader.Busy? && step.Handle? && HandleStep(w, step.action) != w
    && (step.action.CancelSession? || step.action.Close?)
    && step.action.sid in w.directory && w.directory[step.action.sid] == s
  }

  // It has done so since turn `t` was claimed, for that turn's session.
  predicate AimedAt(steps: seq<Step>, t: nat) {
    steps != []
    && var w, step := Run(INITIAL, steps[..|steps| - 1]), steps[|steps| - 1];
       AimedAt(steps[..|steps| - 1], t) || (t < |w.turns| && Aims(w, step, w.turns[t].session))
  }

  // ------------------------------------------------------------------ invariant

  // The turn's start cleared the abort flag.
  predicate HasReset(phase: Phase) { HasRun(phase) && !phase.Woken? && !phase.Announced? }

  predicate AboutToAbort(w: World, s: nat) {
    w.reader.Busy? && (w.reader.work.AbortingTurn? || w.reader.work.ClosingAbort?) && w.reader.work.session == s
  }

  ghost predicate Untold(told: seq<U.StopReason>) { forall i :: 0 <= i < |told| ==> !told[i].Cancelled? }

  // Nothing says "cancelled" to the turn, or on its behalf.
  ghost predicate Unaimed(w: World, t: nat) {
    t < |w.turns| ==>
      && !Marked(w, t) && !AboutToAbort(w, w.turns[t].session)
      && (HasReset(w.turns[t].phase) ==> !EngineAborted(w, t))
      && (w.turns[t].phase.ResultRead? ==> !w.turns[t].phase.cancelled)
      && (w.turns[t].phase.Ended? ==> !w.turns[t].phase.cancelled)
      && Untold(Told(w, t))
  }

  lemma OwnUnaimed(w: World, step: Step, t: nat)
    requires t < |w.turns| && IsTaskStep(step) && step.t == t && Unaimed(w, t)
    ensures Unaimed(TaskStep(w, step, t), t)
  {
    StepTold(w, step, t);
    TaskShape(w, step, t);
    OwnFlags(w, step, t);
    OwnPhases(w, step, t);
    if LooksAtAbort(w, step, t) { ReadReasons(w, step, t); }
  }

  lemma OwnFlags(w: World, step: Step, t: nat)
    requires t < |w.turns| && IsTaskStep(step) && step.t == t && Unaimed(w, t)
    ensures var v := TaskStep(w, step, t);
      t < |v.turns| && !Marked(v, t) && (HasReset(v.turns[t].phase) ==> !EngineAborted(v, t))
  {
    TaskShape(w, step, t);
    OtherFlags(w, step, t);
    ResetFirst(w, step, t);
  }

  // Only `reset_abort` brings a task past it.
  lemma ResetFirst(w: World, step: Step, t: nat)
    requires t < |w.turns| && IsTaskStep(step) && step.t == t
    ensures var v := TaskStep(w, step, t);
      t < |v.turns| && (HasReset(v.turns[t].phase) ==> HasReset(w.turns[t].phase) || !EngineAborted(v, t))
  {
  }

  lemma OwnPhases(w: World, step: Step, t: nat)
    requires t < |w.turns| && IsTaskStep(step) && step.t == t && Unaimed(w, t)
    ensures var p := TaskStep(w, step, t).turns[t].phase;
      (p.ResultRead? ==> !p.cancelled) && (p.Ended? ==> !p.cancelled)
  {
    if step.Poll? {
      assert LooksForResult(w, step, t) ==>
        TaskStep(w, step, t).turns[t].phase == ResultRead(step.msg.result, Marked(w, t));
    }
  }

  // Another task may clear the slot or the abort flag they share, no more.
  lemma OtherUnaimed(w: World, step: Step, u: nat, t: nat)
    requires u < |w.turns| && u != t && Unaimed(w, t)
    ensures Unaimed(TaskStep(w, step, u), t)
  {
    TaskShape(w, step, u);
    OtherFlags(w, step, u);
    if t < |w.turns| { OthersTold(w, step, u, t); }
  }

  lemma OtherFlags(w: World, step: Step, u: nat)
    requires u < |w.turns|
    ensures var v := TaskStep(w, step, u);
      |v.sessions| == |w.sessions|
      && forall s :: 0 <= s < |w.sessions| ==>
        (v.sessions[s].slot.Cancelled() ==> w.sessions[s].slot.Cancelled())
        && (v.sessions[s].aborted ==> w.sessions[s].aborted)
  {
  }

  lemma AbortShape(w: World)
    requires w.reader.Busy?
    ensures var v := ProceedStep(w);
      |v.sessions| == |w.sessions|
      && forall s :: 0 <= s < |w.sessions| ==>
        v.sessions[s].slot == w.sessions[s].slot
          && (v.sessions[s].aborted ==> w.sessions[s].aborted || AboutToAbort(w, s))
    ensures forall s :: !AboutToAbort(ProceedStep(w), s)
  {
  }

  lemma ProceedUnaimed(w: World, t: nat)
    requires w.reader.Busy? && Unaimed(w, t)
    ensures Unaimed(ProceedStep(w), t)
  {
    var v := ProceedStep(w);
    AbortShape(w);
    ProceedAside(w);
    if t < |w.turns| { AsideTold(w, v, t); }
  }

  lemma HandleUnaimed(w: World, action: Action, t: nat)
    requires w.reader.Busy? && Registry(w) && NoGhosts(w) && Unaimed(w, t)
    requires t < |w.turns| ==> !Aims(w, Handle(action), w.turns[t].session)
    ensures Unaimed(HandleStep(w, action), t)
  {
    var v := HandleStep(w, action);
    if v != w {
      HandleShape(w, action);
      HandleAside(w, action);
      TurnAnswers.HandleSlips(w, action);
      if t < |w.turns| { AsideTold(w, v, t); }
    }
  }

  lemma EdgesUnaimed(w: World, step: Step, t: nat)
    requires Registry(w) && Unaimed(w, t) && !IsTaskStep(step)
    requires w.reader.Busy? ==> !step.Handle? && !step.Proceed?
    ensures Unaimed(ReaderStep(w, step), t)
  {
    var v := ReaderStep(w, step);
    ReaderAside(w, step);
    EdgeFlags(w, step);
    if t < |w.turns| { AsideTold(w, v, t); }
  }

  // No flag is set, and no abort is due that was not.
  ghost predicate NoFlagSet(w: World, v: World) {
    && |v.turns| == |w.turns| && |v.sessions| == |w.sessions|
    && (forall s :: 0 <= s < |w.sessions| ==>
         (v.sessions[s].slot.Cancelled() ==> w.sessions[s].slot.Cancelled())
         && v.sessions[s].aborted == w.sessions[s].aborted)
    && (forall s :: AboutToAbort(v, s) ==> AboutToAbort(w, s))
  }

  lemma ResolveFlags(w: World)
    requires w.reader.Busy?
    ensures NoFlagSet(w, ResolveStep(w))
  {
    var r := w.reader;
    if WithdrawsNext(w) {
      WithdrawShape(if r.batch then w.(pending := w.pending - {r.slips[|r.results|].id}) else w,
                    r.answers[|r.results|].turn);
    }
  }

  lemma EdgeFlags(w: World, step: Step)
    requires !IsTaskStep(step) && (w.reader.Busy? ==> !step.Handle? && !step.Proceed?)
    ensures NoFlagSet(w, ReaderStep(w, step))
  {
    match w.reader
    case Ready => if step.Read? { ReadShape(w, step.line); }
    case Starting(_, _) => if step.Start? { StartShape(w); }
    case Busy(_, _, _, _, _, _, _) =>
      if step.Resolve? {
        ResolveFlags(w);
      } else if step.TimeOut? && w.reader.work.ClosingWait? {
        TimeOutShape(w);
      } else {
        assert SameSessions(w, ReaderStep(w, step));
      }
  }

  lemma StepUnaimed(w: World, step: Step, t: nat)
    requires Registry(w) && NoGhosts(w) && Unaimed(w, t)
    requires t < |w.turns| ==> !Aims(w, step, w.turns[t].session)
    ensures Unaimed(Next(w, step), t)
  {
    if IsTaskStep(step) {
      if step.t < |w.turns| {
        if step.t == t { OwnUnaimed(w, step, t); } else { OtherUnaimed(w, step, step.t, t); }
      }
    } else if w.reader.Busy? && step.Handle? {
      HandleUnaimed(w, step.action, t);
    } else if w.reader.Busy? && step.Proceed? {
      ProceedUnaimed(w, t);
    } else {
      EdgesUnaimed(w, step, t);
    }
  }

  lemma {:induction false} RunUnaimed(steps: seq<Step>, t: nat)
    requires !AimedAt(steps, t)
    ensures Unaimed(Run(INITIAL, steps), t)
    decreases |steps|
  {
    if steps != [] {
      var front := steps[..|steps| - 1];
      RunUnaimed(front, t);
      RunKeepsBasic(INITIAL, front);
      RunTallies(front);
      StepUnaimed(Run(INITIAL, front), steps[|steps| - 1], t);
    }
  }

  // A task tells "cancelled" only if the client has cancelled, closed or deleted
  // its session since the turn was claimed.
  lemma {:induction false} CancelledOnlyIfAimed(steps: seq<Step>, w: World, t: nat)
    requires w == Run(INITIAL, steps) && U.Cancelled in IdlesFrom(w.sink, t)
    ensures t < |w.turns| && AimedAt(steps, t)
  {
    RunTallies(steps);
    if !AimedAt(steps, t) {
      RunUnaimed(steps, t);
      SentIsTold(w, t);
    }
  }

  lemma SentIsTold(w: World, t: nat)
    requires t < |w.turns| && Untold(Told(w, t))
    ensures U.Cancelled !in IdlesFrom(w.sink, t)
  {
    assert forall i :: 0 <= i < |IdlesFrom(w.sink, t)| ==> IdlesFrom(w.sink, t)[i] == Told(w, t)[i];
  }
}
