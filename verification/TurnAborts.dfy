/** Whether a cancelled turn's engine stops: a turn marked in time is reported as
    cancelled, but its start clears the abort flag, and with it an abort made
    before. */
module TurnAborts {
  import opened Turns
  import opened TurnExclusivity
  import opened TurnOwnership
  import opened TurnCancellation
  import opened TurnReasons
  import opened TurnAims
  import TurnBreaks
  import TurnWitnesses
  import U = UpdateMapper

  // The reader aborts the engine of session `s`.
  predicate Aborts(w: World, step: Step, s: nat) {
    !IsTaskStep(step) && step.Proceed? && AboutToAbort(w, s) && s < |w.sessions|
  }

  // Past `reset_abort`, and not done.
  predicate Running(w: World, t: nat) {
    t < |w.turns| && HasReset(w.turns[t].phase) && w.turns[t].phase != Done(true)
  }

  // The engine was aborted while the task was past its `reset_abort`.
  predicate AbortedSince(steps: seq<Step>, t: nat) {
    steps != []
    && var w, step := Run(INITIAL, steps[..|steps| - 1]), steps[|steps| - 1];
       AbortedSince(steps[..|steps| - 1], t) || (Running(w, t) && Aborts(w, step, w.turns[t].session))
  }

  // The engine was aborted on behalf of the turn: while it held its slot, marked.
  ghost predicate AbortedFor(steps: seq<Step>, t: nat) {
    steps != []
    && var w, step := Run(INITIAL, steps[..|steps| - 1]), steps[|steps| - 1];
       AbortedFor(steps[..|steps| - 1], t) || (Flagged(w, t) && Aborts(w, step, w.turns[t].session))
  }

  // ------------------------------------------------------------- the abort flag

  predicate FlagSame(w: World, v: World, s: nat) {
    |w.sessions| <= |v.sessions| && (s < |w.sessions| ==> v.sessions[s].aborted == w.sessions[s].aborted)
  }

  lemma TaskFlag(w: World, step: Step, u: nat, s: nat)
    requires u < |w.turns| && !(step.ResetAbort? && w.turns[u].phase.Announced? && w.turns[u].session == s)
    ensures FlagSame(w, TaskStep(w, step, u), s)
  {
    TaskShape(w, step, u);
  }

  lemma HandleFlag(w: World, action: Action, s: nat)
    requires w.reader.Busy? && Registry(w)
    ensures FlagSame(w, HandleStep(w, action), s)
  {
    if HandleStep(w, action) != w { HandleShape(w, action); }
  }

  lemma ProceedFlag(w: World, s: nat)
    requires w.reader.Busy? && s < |w.sessions|
    ensures var v := ProceedStep(w);
      |v.sessions| == |w.sessions| && v.sessions[s].aborted == (w.sessions[s].aborted || AboutToAbort(w, s))
  {
    if Closing(w.reader.work) { CloseShape(w); }
  }

  lemma ReaderFlag(w: World, step: Step, s: nat)
    requires Registry(w) && !IsTaskStep(step) && s < |w.sessions|
    ensures var v := ReaderStep(w, step);
      |w.sessions| <= |v.sessions| && v.sessions[s].aborted == (w.sessions[s].aborted || Aborts(w, step, s))
  {
    if w.reader.Busy? && step.Handle? {
      HandleFlag(w, step.action, s);
    } else if w.reader.Busy? && step.Proceed? {
      ProceedFlag(w, s);
    } else {
      EdgeFlags(w, step);
    }
  }

  // ------------------------------------------------------------------ invariant

  ghost predicate Tracked(w: World, t: nat, since: bool) {
    if Running(w, t) then EngineAborted(w, t) <==> since
    else (t < |w.turns| && HasReset(w.turns[t].phase)) || !since
  }

  lemma OwnTracked(w: World, step: Step, t: nat, since: bool)
    requires t < |w.turns| && IsTaskStep(step) && step.t == t && Tracked(w, t, since)
    ensures Tracked(TaskStep(w, step, t), t, since)
  {
    TaskShape(w, step, t);
    ResetFirst(w, step, t);
    if HasReset(w.turns[t].phase) {
      TaskFlag(w, step, t, w.turns[t].session);
      StaysReset(w, step, t);
    }
  }

  lemma StaysReset(w: World, step: Step, t: nat)
    requires t < |w.turns| && HasReset(w.turns[t].phase)
    ensures var v := TaskStep(w, step, t);
      HasReset(v.turns[t].phase) && (w.turns[t].phase == Done(true) ==> v.turns[t].phase == Done(true))
  {
  }

  // No other task of the session is about to clear the flag.
  lemma OtherTracked(w: World, step: Step, u: nat, t: nat, since: bool)
    requires Exclusive(w) && u < |w.turns| && u != t && Tracked(w, t, since)
    ensures Tracked(TaskStep(w, step, u), t, since)
  {
    TaskShape(w, step, u);
    if Running(w, t) {
      var s := w.turns[t].session;
      assert LiveOn(w, t, s) && !LiveOn(w, u, s);
      TaskFlag(w, step, u, s);
    }
  }

  lemma ReaderTracked(w: World, step: Step, t: nat, since: bool)
    requires Basic(w) && !IsTaskStep(step) && Tracked(w, t, since)
    ensures Tracked(ReaderStep(w, step), t, since || (Running(w, t) && Aborts(w, step, w.turns[t].session)))
  {
    ReaderAside(w, step);
    if Running(w, t) { ReaderFlag(w, step, w.turns[t].session); }
  }

  lemma {:induction false} RunTracked(steps: seq<Step>, t: nat)
    requires Calm(INITIAL, steps)
    ensures Tracked(Run(INITIAL, steps), t, AbortedSince(steps, t))
    decreases |steps|
  {
    if steps != [] {
      var front, last := steps[..|steps| - 1], steps[|steps| - 1];
      var w := Run(INITIAL, front);
      RunTracked(front, t);
      RunKeepsBasic(INITIAL, front);
      CalmRunsExclusive(front);
      if !IsTaskStep(last) {
        ReaderTracked(w, last, t, AbortedSince(front, t));
      } else if last.t == t && t < |w.turns| {
        OwnTracked(w, last, t, AbortedSince(front, t));
      } else if last.t < |w.turns| {
        OtherTracked(w, last, last.t, t, AbortedSince(front, t));
      }
    }
  }

  // --------------------------------------------------------- marks bring aborts

  // A marked turn's engine has been aborted, or is about to be.
  ghost predicate Followed(w: World, t: nat, aborted: bool) {
    Flagged(w, t) ==> aborted || AboutToAbort(w, w.turns[t].session)
  }

  // Slots were freed at most, and an abort that is due still is.
  ghost predicate OnlyFrees(w: World, v: World) {
    && |v.turns| == |w.turns| && |v.sessions| == |w.sessions|
    && (forall t :: 0 <= t < |w.turns| ==> v.turns[t].session == w.turns[t].session)
    && (forall s :: 0 <= s < |w.sessions| ==> v.sessions[s].slot == w.sessions[s].slot || v.sessions[s].slot.Free?)
    && (forall s: nat :: AboutToAbort(w, s) ==> AboutToAbort(v, s))
  }

  lemma OnlyFreesFollowed(w: World, v: World, t: nat, aborted: bool)
    requires Followed(w, t, aborted) && OnlyFrees(w, v)
    ensures Followed(v, t, aborted)
  {
    if Flagged(v, t) { assert Flagged(w, t); }
  }

  lemma TaskOnlyFrees(w: World, step: Step, u: nat)
    requires u < |w.turns|
    ensures OnlyFrees(w, TaskStep(w, step, u))
  {
    TaskShape(w, step, u);
  }

  lemma ResolveOnlyFrees(w: World)
    requires w.reader.Busy?
    ensures OnlyFrees(w, ResolveStep(w))
  {
    var r := w.reader;
    if WithdrawsNext(w) {
      WithdrawShape(if r.batch then w.(pending := w.pending - {r.slips[|r.results|].id}) else w,
                    r.answers[|r.results|].turn);
    }
  }

  lemma EdgeOnlyFrees(w: World, step: Step)
    requires !IsTaskStep(step) && (w.reader.Busy? ==> !step.Handle? && !step.Proceed?)
    ensures OnlyFrees(w, ReaderStep(w, step))
  {
    match w.reader
    case Ready => if step.Read? { ReadShape(w, step.line); }
    case Starting(_, _) => if step.Start? { StartShape(w); }
    case Busy(_, _, _, _, _, _, _) =>
      if step.Resolve? {
        ResolveOnlyFrees(w);
      } else if step.TimeOut? && w.reader.work.ClosingWait? {
        TimeOutShape(w);
      } else {
        assert SameSessions(w, ReaderStep(w, step));
      }
  }

  lemma HandleFollowed(w: World, action: Action, t: nat, aborted: bool)
    requires Registry(w) && w.reader.Busy? && Followed(w, t, aborted)
    ensures Followed(HandleStep(w, action), t, aborted)
  {
    var v := HandleStep(w, action);
    if v != w {
      HandleShape(w, action);
      if Flagged(v, t) && !AboutToAbort(v, v.turns[t].session) { assert Flagged(w, t); }
    }
  }

  lemma ProceedKeepsSlots(w: World)
    requires w.reader.Busy?
    ensures var v := ProceedStep(w);
      && |v.turns| == |w.turns| && |v.sessions| == |w.sessions|
      && (forall t :: 0 <= t < |w.turns| ==> v.turns[t].session == w.turns[t].session)
      && (forall s :: 0 <= s < |w.sessions| ==> v.sessions[s].slot == w.sessions[s].slot)
  {
    if w.reader.work.ConvertingPrompt? {
      ConvertShape(w);
    } else if Closing(w.reader.work) {
      CloseShape(w);
    } else {
      ProceedShape(w);
    }
  }

  lemma ProceedFollowed(w: World, t: nat, aborted: bool)
    requires w.reader.Busy? && Followed(w, t, aborted)
    ensures Followed(ProceedStep(w), t,
      aborted || (Flagged(w, t) && AboutToAbort(w, w.turns[t].session)))
  {
    ProceedKeepsSlots(w);
    if Flagged(ProceedStep(w), t) { assert Flagged(w, t); }
  }

  lemma {:induction false} RunFollowed(steps: seq<Step>, t: nat)
    ensures Followed(Run(INITIAL, steps), t, AbortedFor(steps, t))
    decreases |steps|
  {
    if steps != [] {
      var front, last := steps[..|steps| - 1], steps[|steps| - 1];
      var w, aborted := Run(INITIAL, front), AbortedFor(front, t);
      RunFollowed(front, t);
      RunKeepsBasic(INITIAL, front);
      if IsTaskStep(last) {
        if last.t < |w.turns| { TaskOnlyFrees(w, last, last.t); OnlyFreesFollowed(w, Next(w, last), t, aborted); }
      } else if w.reader.Busy? && last.Handle? {
        HandleFollowed(w, last.action, t, aborted);
      } else if w.reader.Busy? && last.Proceed? {
        ProceedFollowed(w, t, aborted);
      } else {
        EdgeOnlyFrees(w, last);
        OnlyFreesFollowed(w, Next(w, last), t, aborted);
      }
    }
  }

  // ------------------------------------------------------------------- theorems

  // In calm runs, the engine of a task past its `reset_abort` is aborted exactly
  // if the reader aborted it after that: an abort made before is wiped.
  lemma {:induction false} AbortHeldExactly(steps: seq<Step>, w: World, t: nat)
    requires w == Run(INITIAL, steps) && Calm(INITIAL, steps) && Running(w, t)
    ensures EngineAborted(w, t) <==> AbortedSince(steps, t)
  {
    RunTracked(steps, t);
  }

  // A marked turn's abort has been made once the reader has moved on, so its
  // engine runs on un-aborted exactly if every abort came before the reset.
  lemma {:induction false} MarkedEngineExactly(steps: seq<Step>, w: World, t: nat)
    requires w == Run(INITIAL, steps) && Calm(INITIAL, steps) && Running(w, t)
    requires Flagged(w, t) && !AboutToAbort(w, w.turns[t].session)
    ensures AbortedFor(steps, t)
    ensures EngineAborted(w, t) <==> AbortedSince(steps, t)
  {
    RunFollowed(steps, t);
    RunTracked(steps, t);
  }

  // ------------------------------------------------------------ the failing run

  // The abort, and the reset that wipes it.
  lemma AbortedThenReset(w: World)
    requires TurnWitnesses.At(w, Announced, [], 0, true) && w.reader.Busy? && w.reader.work == AbortingTurn(0)
    ensures !Withdraws(w, Proceed)
    ensures var v := Next(Next(w, Proceed), ResetAbort(0));
      TurnWitnesses.At(v, Polling, [], 0, true) && v.reader.Busy? && v.reader.work.NoWork?
  {
    var a := Next(w, Proceed);
    assert a.sessions == [Session("s", false, Claimed(0, true), true)] && a.turns == w.turns && a.sink == w.sink;
    var v := Next(a, ResetAbort(0));
    assert v.sessions == [Session("s", false, Claimed(0, true), false)] && v.sink == w.sink;
    assert v.turns == [Turn(0, Polling, U.FRESH, 0)];
  }

  // The task announced, and its turn marked: the abort comes next.
  lemma MarkedBeforeReset() returns (steps: seq<Step>)
    ensures TurnBreaks.Patient(steps) && Calm(INITIAL, steps)
    ensures TurnWitnesses.At(Run(INITIAL, steps), Announced, [], 0, true)
    ensures Run(INITIAL, steps).reader.Busy? && Run(INITIAL, steps).reader.work == AbortingTurn(0)
  {
    var front := TurnWitnesses.TaskReleased();
    TurnWitnesses.Wakes(INITIAL, front);
    TurnWitnesses.Announces(INITIAL, front + [Wake(0)]);
    TurnWitnesses.CalmThen(front, [Wake(0)]);
    TurnWitnesses.CalmThen(front + [Wake(0)], [Announce(0)]);
    steps := TurnWitnesses.MarkedRun(front + [Wake(0)] + [Announce(0)], Announced, 0);
  }

  lemma AbortedAndReset() returns (steps: seq<Step>)
    ensures TurnBreaks.Patient(steps) && Calm(INITIAL, steps)
    ensures var w := Run(INITIAL, steps);
      TurnWitnesses.At(w, Polling, [], 0, true) && w.reader.Busy? && w.reader.work.NoWork?
  {
    var front := MarkedBeforeReset();
    var w := Run(INITIAL, front);
    AbortedThenReset(w);
    RunTwo(w, Proceed, ResetAbort(0));
    TurnBreaks.CalmTwo(w, Proceed, ResetAbort(0));
    RunAppend(INITIAL, front, [Proceed, ResetAbort(0)]);
    TurnBreaks.CalmAppend(INITIAL, front, [Proceed, ResetAbort(0)]);
    steps := front + [Proceed, ResetAbort(0)];
  }

  // The client cancels a turn that has announced itself; the abort is made, the
  // task resets it, and the engine goes on to a result of its own. The mark is
  // read, so the turn is reported cancelled all the same.
  lemma AbortWiped() returns (steps: seq<Step>)
    ensures Calm(INITIAL, steps) && AbortedFor(steps, 0) && !AbortedSince(steps, 0)
    ensures var w := Run(INITIAL, steps);
      && w.turns == [Turn(0, ResultRead(TurnWitnesses.ENDED, true), U.FRESH, 1)]
      && Flagged(w, 0) && !EngineAborted(w, 0) && ReasonRead(w, 0).Cancelled?
  {
    var poll := Poll(0, U.Result(TurnWitnesses.ENDED));
    var front := AbortedAndReset();
    TurnWitnesses.MovesOn(INITIAL, front, poll, Polling, [], 0, true);
    TurnWitnesses.CalmThen(front, [poll]);
    steps := front + [poll];
    MarkedEngineExactly(steps, Run(INITIAL, steps), 0);
  }
}
