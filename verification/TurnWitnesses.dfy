/** Runs that show what the other turn modules' conditions are for: a prompt that
    blocks its session, and two cancellations that come too late. */
module TurnWitnesses {
  import opened Wrappers
  import opened Jsonrpc
  import opened Turns
  import opened TurnExclusivity
  import opened TurnOwnership
  import opened TurnCancellation
  import TurnBreaks
  import U = UpdateMapper

  // A result that ends the turn of itself.
  const ENDED: U.TurnResult := U.TurnResult(U.OtherSubtype, false)

  // ------------------------------------------------------------ a refused prompt

  // A prompt that cannot be converted: its slot is claimed, and no task exists.
  lemma RefusalSticks() returns (steps: seq<Step>)
    ensures TurnBreaks.Patient(steps) && Calm(INITIAL, steps) && Unforced(INITIAL, steps)
    ensures Stuck(Run(INITIAL, steps), 0) && NoneAlive(Run(INITIAL, steps), 0)
  {
    var open := TurnBreaks.OpenSession();
    var w := Run(INITIAL, open);
    var refuse := [Read(TurnBreaks.PROMPT_LINE), Handle(Prompt("s", false))];
    PromptRefused(w);
    RunTwo(w, refuse[0], refuse[1]);
    TurnBreaks.CalmTwo(w, refuse[0], refuse[1]);
    RunAppend(INITIAL, open, refuse);
    TurnBreaks.CalmAppend(INITIAL, open, refuse);
    RefusalAnswered(Run(INITIAL, open + refuse));
    TurnBreaks.OneMore(INITIAL, open + refuse, Proceed);
    steps := open + refuse + [Proceed];
    TurnBreaks.PatientIsUnforced(INITIAL, steps);
  }

  lemma PromptRefused(w: World)
    requires TurnBreaks.SessionOpen(w)
    ensures var v := Next(Next(w, Read(TurnBreaks.PROMPT_LINE)), Handle(Prompt("s", false)));
      && v.sessions == [Session("s", false, Claimed(0, false), false)] && v.turns == [Turn(0, Converting, U.FRESH, 0)]
      && v.reader.Busy? && v.reader.work == ConvertingPrompt(0, false)
  {
    TurnBreaks.PromptParses();
    TurnBreaks.LineTaken(w, TurnBreaks.PROMPT_LINE, TurnBreaks.PROMPT);
  }

  lemma RefusalAnswered(w: World)
    requires w.sessions == [Session("s", false, Claimed(0, false), false)]
      && w.turns == [Turn(0, Converting, U.FRESH, 0)]
    requires w.reader.Busy? && w.reader.work == ConvertingPrompt(0, false)
    ensures Stuck(Next(w, Proceed), 0) && NoneAlive(Next(w, Proceed), 0)
  {
    assert Next(w, Proceed).turns == [Turn(0, Unconverted, U.FRESH, 0)];
  }

  // --------------------------------------------------- one session and its task

  // One session, held by its one task, which has told the client `told`.
  ghost predicate At(w: World, phase: Phase, told: seq<U.StopReason>, results: nat, marked: bool) {
    && w.turns == [Turn(0, phase, U.FRESH, results)] && Told(w, 0) == told
    && w.sessions == [Session("s", false, Claimed(0, marked), false)] && w.directory == map["s" := 0]
  }

  // Steps of the task, the last one apart, leave the session to it.
  lemma Moves(w: World, step: Step, phase: Phase, told: seq<U.StopReason>, results: nat, marked: bool)
    requires At(w, phase, told, results, marked) && IsTaskStep(step) && step.t == 0 && !step.Leave?
    requires phase != Dropped && (step.Poll? ==> step.msg.Result?)
    ensures var v := Next(w, step);
      |v.turns| == 1 && v.reader == w.reader
      && At(v, v.turns[0].phase, told + NewIdles(w, step, 0), v.turns[0].results, marked)
  {
    StepTold(w, step, 0);
    TaskShape(w, step, 0);
  }

  lemma MovesOn(base: World, steps: seq<Step>, step: Step, phase: Phase, told: seq<U.StopReason>, results: nat,
      marked: bool)
    requires At(Run(base, steps), phase, told, results, marked) && IsTaskStep(step) && step.t == 0 && !step.Leave?
    requires phase != Dropped && (step.Poll? ==> step.msg.Result?)
    ensures var w, v := Run(base, steps), Run(base, steps + [step]);
      && v == Next(w, step) && |v.turns| == 1 && v.reader == w.reader
      && At(v, v.turns[0].phase, told + NewIdles(w, step, 0), v.turns[0].results, marked)
  {
    Moves(Run(base, steps), step, phase, told, results, marked);
    RunOneMore(base, steps, step);
  }

  // What the task does, step by step.
  lemma Wakes(base: World, steps: seq<Step>)
    requires At(Run(base, steps), Signalled, [], 0, false)
    ensures Run(base, steps + [Wake(0)]).reader == Run(base, steps).reader
    ensures At(Run(base, steps + [Wake(0)]), Woken, [], 0, false)
  {
    MovesOn(base, steps, Wake(0), Signalled, [], 0, false);
  }

  lemma Announces(base: World, steps: seq<Step>)
    requires At(Run(base, steps), Woken, [], 0, false)
    ensures Run(base, steps + [Announce(0)]).reader == Run(base, steps).reader
    ensures At(Run(base, steps + [Announce(0)]), Announced, [], 0, false)
  {
    MovesOn(base, steps, Announce(0), Woken, [], 0, false);
  }

  lemma Resets(base: World, steps: seq<Step>)
    requires At(Run(base, steps), Announced, [], 0, false)
    ensures Run(base, steps + [ResetAbort(0)]).reader == Run(base, steps).reader
    ensures At(Run(base, steps + [ResetAbort(0)]), Polling, [], 0, false)
  {
    MovesOn(base, steps, ResetAbort(0), Announced, [], 0, false);
  }

  lemma ReadsResult(base: World, steps: seq<Step>, result: U.TurnResult)
    requires At(Run(base, steps), Polling, [], 0, false)
    ensures Run(base, steps + [Poll(0, U.Result(result))]).reader == Run(base, steps).reader
    ensures At(Run(base, steps + [Poll(0, U.Result(result))]), ResultRead(result, false), [], 1, false)
  {
    MovesOn(base, steps, Poll(0, U.Result(result)), Polling, [], 0, false);
  }

  lemma MapsResult(base: World, steps: seq<Step>)
    requires At(Run(base, steps), ResultRead(ENDED, false), [], 1, true)
    ensures Run(base, steps + [MapRead(0)]).reader == Run(base, steps).reader
    ensures At(Run(base, steps + [MapRead(0)]), Sending([U.Usage, U.Idle(U.EndTurn)]), [U.EndTurn], 1, true)
  {
    MovesOn(base, steps, MapRead(0), ResultRead(ENDED, false), [], 1, true);
  }

  lemma Emits(base: World, steps: seq<Step>, outbox: seq<U.Update>, told: seq<U.StopReason>, results: nat, marked: bool)
    requires At(Run(base, steps), Sending(outbox), told, results, marked) && outbox != []
    ensures Run(base, steps + [Emit(0)]).reader == Run(base, steps).reader
    ensures At(Run(base, steps + [Emit(0)]), Sending(outbox[1..]), told, results, marked)
  {
    MovesOn(base, steps, Emit(0), Sending(outbox), told, results, marked);
  }

  lemma EmitsLast(base: World, steps: seq<Step>, told: seq<U.StopReason>, results: nat, marked: bool)
    requires At(Run(base, steps), Sending([]), told, results, marked)
    ensures Run(base, steps + [Emit(0)]).reader == Run(base, steps).reader
    ensures At(Run(base, steps + [Emit(0)]), Polling, told, results, marked)
  {
    MovesOn(base, steps, Emit(0), Sending([]), told, results, marked);
  }

  lemma Ends(base: World, steps: seq<Step>, told: seq<U.StopReason>, results: nat, marked: bool)
    requires At(Run(base, steps), Polling, told, results, marked)
    ensures Run(base, steps + [EndStream(0)]).reader == Run(base, steps).reader
    ensures At(Run(base, steps + [EndStream(0)]), Ended(marked), told, results, marked)
  {
    MovesOn(base, steps, EndStream(0), Polling, told, results, marked);
  }

  lemma SendsNoIdle(base: World, steps: seq<Step>, cancelled: bool, told: seq<U.StopReason>, results: nat, marked: bool)
    requires At(Run(base, steps), Ended(cancelled), told, results, marked) && (cancelled ==> results > 0)
    ensures Run(base, steps + [SendIdle(0)]).reader == Run(base, steps).reader
    ensures At(Run(base, steps + [SendIdle(0)]), Leaving, told, results, marked)
  {
    MovesOn(base, steps, SendIdle(0), Ended(cancelled), told, results, marked);
  }

  predicate TaskOnly(steps: seq<Step>) { forall i :: 0 <= i < |steps| ==> IsTaskStep(steps[i]) }

  lemma {:induction false} TaskOnlyIsCalm(w: World, steps: seq<Step>)
    requires TaskOnly(steps)
    ensures Calm(w, steps) && Unforced(w, steps)
    decreases |steps|
  {
    if steps != [] { TaskOnlyIsCalm(w, steps[..|steps| - 1]); }
  }

  // The prompt's task released, and nothing told yet.
  lemma TaskReleased() returns (steps: seq<Step>)
    ensures TurnBreaks.Patient(steps) && Calm(INITIAL, steps)
    ensures At(Run(INITIAL, steps), Signalled, [], 0, false) && Run(INITIAL, steps).reader.Ready?
  {
    var open := TurnBreaks.OpenSession();
    var accept := TurnBreaks.PromptAccepted(Run(INITIAL, open), "s");
    RunAppend(INITIAL, open, accept);
    TurnBreaks.CalmAppend(INITIAL, open, accept);
    steps := open + accept;
    forall i | 0 <= i < |accept| ensures !accept[i].TimeOut? { assert TurnBreaks.Ordinary(accept[i]); }
    RunTallies(steps);
    var w := Run(INITIAL, steps);
    assert w.turns == [] + [Turn(0, Signalled, U.FRESH, 0)];
    assert Tally(w.turns[0].phase, Told(w, 0), 0);
  }

  const TO_POLLING := [Wake(0), Announce(0), ResetAbort(0)]

  lemma GetsPolling(base: World, front: seq<Step>)
    requires At(Run(base, front), Signalled, [], 0, false)
    ensures Run(base, front + TO_POLLING).reader == Run(base, front).reader
    ensures At(Run(base, front + TO_POLLING), Polling, [], 0, false)
  {
    Wakes(base, front);
    Announces(base, front + [Wake(0)]);
    Resets(base, front + [Wake(0)] + [Announce(0)]);
    assert front + [Wake(0)] + [Announce(0)] + [ResetAbort(0)] == front + TO_POLLING;
  }

  lemma CalmThen(front: seq<Step>, more: seq<Step>)
    requires TurnBreaks.Patient(front) && Calm(INITIAL, front) && TaskOnly(more)
    ensures TurnBreaks.Patient(front + more) && Calm(INITIAL, front + more)
  {
    TaskOnlyIsCalm(Run(INITIAL, front), more);
    TurnBreaks.CalmAppend(INITIAL, front, more);
  }

  // Up to the point where it asks its stream for a message.
  lemma TaskPolling() returns (steps: seq<Step>)
    ensures TurnBreaks.Patient(steps) && Calm(INITIAL, steps)
    ensures At(Run(INITIAL, steps), Polling, [], 0, false) && Run(INITIAL, steps).reader.Ready?
  {
    var front := TaskReleased();
    GetsPolling(INITIAL, front);
    CalmThen(front, TO_POLLING);
    steps := front + TO_POLLING;
  }

  // ------------------------------------------------------------- the late mark

  const CANCEL_SESSION: Entry := Notification("session/cancel", Some(JObj(map["sessionId" := JStr("s")])))

  const CANCEL_LINE: Line :=
    Parsed(JObj(map["method" := JStr("session/cancel"), "params" := JObj(map["sessionId" := JStr("s")])]))

  lemma CancelParses()
    ensures FrameOf(CANCEL_LINE) == Ok(Some(Single(CANCEL_SESSION)))
  {
  }

  // The client's `session/cancel` marks the turn; the abort is still to come.
  lemma Marking(w: World, phase: Phase, results: nat)
    requires At(w, phase, [], results, false) && w.reader.Ready?
    ensures var v := Next(Next(w, Read(CANCEL_LINE)), Handle(CancelSession("s")));
      && v.sink == w.sink && v.turns == w.turns && At(v, phase, [], results, true)
      && v.reader.Busy? && v.reader.work == AbortingTurn(0)
  {
    CancelParses();
    TurnBreaks.LineTaken(w, CANCEL_LINE, CANCEL_SESSION);
    var a := Next(w, Read(CANCEL_LINE));
    var v := Next(a, Handle(CancelSession("s")));
    assert v.sessions == [Session("s", false, Claimed(0, true), false)];
  }

  lemma MarkedRun(before: seq<Step>, phase: Phase, results: nat) returns (steps: seq<Step>)
    requires TurnBreaks.Patient(before) && Calm(INITIAL, before)
    requires At(Run(INITIAL, before), phase, [], results, false) && Run(INITIAL, before).reader.Ready?
    ensures TurnBreaks.Patient(steps) && Calm(INITIAL, steps) && At(Run(INITIAL, steps), phase, [], results, true)
    ensures Run(INITIAL, steps).reader.Busy? && Run(INITIAL, steps).reader.work == AbortingTurn(0)
  {
    var w := Run(INITIAL, before);
    var mark := [Read(CANCEL_LINE), Handle(CancelSession("s"))];
    Marking(w, phase, results);
    RunTwo(w, mark[0], mark[1]);
    TurnBreaks.CalmTwo(w, mark[0], mark[1]);
    RunAppend(INITIAL, before, mark);
    TurnBreaks.CalmAppend(INITIAL, before, mark);
    steps := before + mark;
  }

  // The task clears its slot and is done.
  lemma Leaves(w: World, told: seq<U.StopReason>, results: nat, marked: bool)
    requires At(w, Leaving, told, results, marked)
    ensures var v := Next(w, Leave(0));
      HasFinished(v, 0) && v.turns[0].results == results && IdlesFrom(v.sink, 0) == told
  {
    StepTold(w, Leave(0), 0);
    TaskShape(w, Leave(0), 0);
  }

  // With a mark of its own session's client, and a slot it keeps to the end, the
  // task tells the client nothing of a cancellation.
  ghost predicate Missed(before: seq<Step>, after: seq<Step>, results: nat, told: seq<U.StopReason>) {
    var w := Run(INITIAL, before);
    && TurnBreaks.Patient(before) && Calm(INITIAL, before) && TaskOnly(after)
    && Flagged(w, 0) && Live(w.turns[0].phase) && KeepsSlot(w, after, 0)
    && var v := Run(w, after);
       HasFinished(v, 0) && v.turns[0].results == results && IdlesFrom(v.sink, 0) == told
  }

  lemma KeepsItsSlot(before: seq<Step>, w: World, after: seq<Step>, phase: Phase, results: nat)
    requires w == Run(INITIAL, before) && TurnBreaks.Patient(before) && Calm(INITIAL, before) && TaskOnly(after)
    requires At(w, phase, [], results, true) && Live(phase)
    ensures Flagged(w, 0) && KeepsSlot(w, after, 0)
  {
    TurnBreaks.PatientIsUnforced(INITIAL, before);
    TaskOnlyIsCalm(w, after);
    CalmRunsKeepSlot(before, w, after, 0);
  }

  // Without a result: the stream is over and the task has looked at the slot; the
  // mark comes, and the turn ends without any idle.
  lemma MarkAfterEndMissed() returns (before: seq<Step>, after: seq<Step>)
    ensures Run(INITIAL, before).turns == [Turn(0, Ended(false), U.FRESH, 0)]
    ensures Missed(before, after, 0, [])
  {
    var front := TaskPolling();
    Ends(INITIAL, front, [], 0, false);
    CalmThen(front, [EndStream(0)]);
    before := MarkedRun(front + [EndStream(0)], Ended(false), 0);
    var w := Run(INITIAL, before);
    SendsNoIdle(w, [], false, [], 0, true);
    after := LeavesAfter(w, [] + [SendIdle(0)], [], 0);
    KeepsItsSlot(before, w, after, Ended(false), 0);
  }

  lemma LeavesAfter(w: World, front: seq<Step>, told: seq<U.StopReason>, results: nat) returns (steps: seq<Step>)
    requires TaskOnly(front) && At(Run(w, front), Leaving, told, results, true)
    ensures TaskOnly(steps)
    ensures var v := Run(w, steps);
      HasFinished(v, 0) && v.turns[0].results == results && IdlesFrom(v.sink, 0) == told
  {
    Leaves(Run(w, front), told, results, true);
    RunOneMore(w, front, Leave(0));
    steps := front + [Leave(0)];
  }

  // What the task still does after the mark.
  lemma MapsAndEnds(w: World) returns (steps: seq<Step>)
    requires At(w, ResultRead(ENDED, false), [], 1, true)
    ensures TaskOnly(steps) && At(Run(w, steps), Leaving, [U.EndTurn], 1, true)
  {
    var outbox := [U.Usage, U.Idle(U.EndTurn)];
    var a := [] + [MapRead(0)];
    MapsResult(w, []);
    Emits(w, a, outbox, [U.EndTurn], 1, true);
    assert outbox[1..] == [U.Idle(U.EndTurn)];
    Emits(w, a + [Emit(0)], [U.Idle(U.EndTurn)], [U.EndTurn], 1, true);
    assert [U.Idle(U.EndTurn)][1..] == [];
    steps := EndsAfter(w, a + [Emit(0)] + [Emit(0)]);
  }

  lemma EndsAfter(base: World, front: seq<Step>) returns (steps: seq<Step>)
    requires TaskOnly(front) && At(Run(base, front), Sending([]), [U.EndTurn], 1, true)
    ensures TaskOnly(steps) && At(Run(base, steps), Leaving, [U.EndTurn], 1, true)
  {
    EmitsLast(base, front, [U.EndTurn], 1, true);
    Ends(base, front + [Emit(0)], [U.EndTurn], 1, true);
    SendsNoIdle(base, front + [Emit(0)] + [EndStream(0)], true, [U.EndTurn], 1, true);
    steps := front + [Emit(0)] + [EndStream(0)] + [SendIdle(0)];
  }

  // With a result: the task has read the slot for it; the mark comes, and the
  // result is mapped before the abort: the turn ends with another reason.
  lemma MarkAfterReadMissed() returns (before: seq<Step>, after: seq<Step>)
    ensures Run(INITIAL, before).turns == [Turn(0, ResultRead(ENDED, false), U.FRESH, 1)]
    ensures Missed(before, after, 1, [U.EndTurn])
  {
    var front := TaskPolling();
    var poll := Poll(0, U.Result(ENDED));
    ReadsResult(INITIAL, front, ENDED);
    CalmThen(front, [poll]);
    before := MarkedRun(front + [poll], ResultRead(ENDED, false), 1);
    var w := Run(INITIAL, before);
    var rest := MapsAndEnds(w);
    after := LeavesAfter(w, rest, [U.EndTurn], 1);
    KeepsItsSlot(before, w, after, ResultRead(ENDED, false), 1);
  }
}
