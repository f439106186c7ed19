/** What the client sees of a turn's end: the idle updates of its worker, and that
    of a close which gave up waiting for it. */
module TurnSeen {
  import opened Wrappers
  import opened RequestIds
  import opened Jsonrpc
  import opened Turns
  import opened TurnExclusivity
  import opened TurnOwnership
  import opened TurnCancellation
  import opened TurnReasons
  import TurnBreaks
  import TurnWitnesses
  import U = UpdateMapper

  // The reader takes up a close or a delete of a session that has a turn.
  predicate ClosesTurn(w: World, step: Step) {
    && w.reader.Busy? && step.Handle? && step.action.Close? && HandleStep(w, step.action) != w
    && step.action.sid in w.directory && SlotOf(w, w.directory[step.action.sid]).Claimed?
  }

  // The turn that the last such close found in the slot.
  function LastClosed(steps: seq<Step>): Option<nat> {
    if steps == [] then None
    else ClosedNow(Run(INITIAL, steps[..|steps| - 1]), steps[|steps| - 1], LastClosed(steps[..|steps| - 1]))
  }

  function ClosedNow(w: World, step: Step, closed: Option<nat>): Option<nat> {
    if ClosesTurn(w, step) then Some(SlotOf(w, w.directory[step.action.sid]).turn) else closed
  }

  // A close that gave up sends an idle update of its own.
  predicate GivesUp(w: World, step: Step) {
    w.reader.Busy? && w.reader.work.ClosingNotify? && step.Proceed?
  }

  function GivesUpOn(w: World, step: Step, closed: Option<nat>, t: nat): nat {
    if GivesUp(w, step) && closed == Some(t) then 1 else 0
  }

  // How many closes of the turn's session gave up waiting for the turn.
  function GaveUp(steps: seq<Step>, t: nat): nat {
    if steps == [] then 0
    else GaveUp(steps[..|steps| - 1], t)
         + GivesUpOn(Run(INITIAL, steps[..|steps| - 1]), steps[|steps| - 1], LastClosed(steps[..|steps| - 1]), t)
  }

  // The reasons of the idle updates put in the queue about turn `t`, in order: its
  // worker's, and those of closes that gave up on it.
  function Seen(steps: seq<Step>, t: nat): seq<U.StopReason> {
    if steps == [] then []
    else
      var w, v := Run(INITIAL, steps[..|steps| - 1]), Run(INITIAL, steps);
      Seen(steps[..|steps| - 1], t)
      + (if |v.sink| <= |w.sink| then []
         else if GivesUpOn(w, steps[|steps| - 1], LastClosed(steps[..|steps| - 1]), t) == 1
         then ReasonIn(v.sink[|w.sink|])
         else IdleOf(v.sink[|w.sink|], t))
  }

  function ReasonIn(frame: Frame): seq<U.StopReason> {
    if frame.Notice? && frame.update.Idle? then [frame.update.reason] else []
  }

  // --------------------------------------------------------- slots and closings

  // A claimed slot names a turn of its session.
  ghost predicate SlotsNamed(w: World) {
    forall s :: 0 <= s < |w.sessions| && w.sessions[s].slot.Claimed? ==>
      w.sessions[s].slot.turn < |w.turns| && w.turns[w.sessions[s].slot.turn].session == s
  }

  function ClosingWork(r: Reader): Option<Work> {
    if r.Busy? && Closing(r.work) then Some(r.work) else None
  }

  // The close found a turn and has not let go of it.
  predicate ForTurn(work: Work) {
    (work.ClosingAbort? && work.hadTurn) || work.ClosingWait? || work.ClosingNotify?
  }

  // The session being closed is registered, and the turn found is its own.
  ghost predicate ClosingSound(w: World, closed: Option<nat>) {
    var work := ClosingWork(w.reader);
    work.Some? ==>
      && work.value.session < |w.sessions| && SidOf(w, work.value.session) in w.directory
      && w.directory[SidOf(w, work.value.session)] == work.value.session
      && (ForTurn(work.value) ==>
           closed.Some? && closed.value < |w.turns| && w.turns[closed.value].session == work.value.session)
  }

  // The session object has left the directory, or is about to.
  ghost predicate Gone(w: World, s: nat) {
    && s < |w.sessions|
    && ((w.reader.Busy? && w.reader.work.ClosingRemove? && w.reader.work.session == s)
        || forall sid :: sid in w.directory ==> w.directory[sid] != s)
  }

  ghost predicate OnceGone(w: World, gaveUp: nat, t: nat) {
    gaveUp <= 1 && (gaveUp == 1 ==> t < |w.turns| && Gone(w, w.turns[t].session))
  }

  ghost predicate Sound(w: World, closed: Option<nat>, gaveUp: nat, t: nat) {
    SlotsNamed(w) && ClosingSound(w, closed) && OnceGone(w, gaveUp, t)
  }

  // Sessions and turns stay what they are, and a slot is freed, marked or left.
  ghost predicate Grows(w: World, v: World) {
    && |w.sessions| <= |v.sessions| && |w.turns| <= |v.turns|
    && (forall s :: 0 <= s < |w.sessions| ==> v.sessions[s].sid == w.sessions[s].sid)
    && (forall t :: 0 <= t < |w.turns| ==> v.turns[t].session == w.turns[t].session)
  }

  ghost predicate SlotsKept(w: World, v: World) {
    forall s :: 0 <= s < |v.sessions| && v.sessions[s].slot.Claimed? ==>
      s < |w.sessions| && w.sessions[s].slot.Claimed? && v.sessions[s].slot.turn == w.sessions[s].slot.turn
  }

  // A step that has nothing to do with a close, or with the directory.
  lemma AloofSound(w: World, v: World, closed: Option<nat>, gaveUp: nat, t: nat)
    requires Sound(w, closed, gaveUp, t) && Grows(w, v) && SlotsNamed(v)
    requires v.directory == w.directory && ClosingWork(v.reader) == ClosingWork(w.reader)
    ensures Sound(v, closed, gaveUp, t)
  {
  }

  lemma TaskSound(w: World, step: Step, u: nat, closed: Option<nat>, gaveUp: nat, t: nat)
    requires Sound(w, closed, gaveUp, t) && u < |w.turns|
    ensures Sound(TaskStep(w, step, u), closed, gaveUp, t)
  {
    TaskShape(w, step, u);
    TaskSlots(w, step, u);
    AloofSound(w, TaskStep(w, step, u), closed, gaveUp, t);
  }

  lemma TaskSlots(w: World, step: Step, u: nat)
    requires u < |w.turns|
    ensures SlotsKept(w, TaskStep(w, step, u))
  {
    TaskShape(w, step, u);
  }

  // ------------------------------------------------------------- reader's steps

  lemma ClaimSound(w: World, v: World, s: nat, closed: Option<nat>, gaveUp: nat, t: nat)
    requires Sound(w, closed, gaveUp, t) && Claims(w, v, s) && ClosingWork(w.reader).None?
    ensures Sound(v, closed, gaveUp, t)
  {
    AloofSound(w, v, closed, gaveUp, t);
  }

  lemma OpenSound(w: World, v: World, sid: string, closed: Option<nat>, gaveUp: nat, t: nat)
    requires Sound(w, closed, gaveUp, t) && Opens(w, v, sid)
    requires ClosingWork(w.reader).None? && ClosingWork(v.reader).None?
    ensures Sound(v, closed, gaveUp, t)
  {
  }

  // The close takes note of the turn it finds.
  lemma CloseSound(w: World, sid: string, archive: Option<Result<Json, Error>>, closed: Option<nat>,
      gaveUp: nat, t: nat)
    requires w.reader.Busy? && Registry(w) && Sound(w, closed, gaveUp, t)
    requires HandleStep(w, Close(sid, archive)) != w
    ensures Sound(HandleStep(w, Close(sid, archive)), ClosedNow(w, Handle(Close(sid, archive)), closed), gaveUp, t)
  {
    var v := HandleStep(w, Close(sid, archive));
    HandleShape(w, Close(sid, archive));
    if sid in w.directory {
      assert v.reader.work == ClosingAbort(w.directory[sid], archive, SlotOf(w, w.directory[sid]).Claimed?);
      assert SlotsNamed(v);
    } else {
      AloofSound(w, v, closed, gaveUp, t);
    }
  }

  lemma PromptSound(w: World, action: Action, closed: Option<nat>, gaveUp: nat, t: nat)
    requires w.reader.Busy? && Registry(w) && Sound(w, closed, gaveUp, t)
    requires action.Prompt? && HandleStep(w, action) != w
    ensures Sound(HandleStep(w, action), closed, gaveUp, t)
  {
    var v := HandleStep(w, action);
    HandleShape(w, action);
    if SameSessions(w, v) {
      AloofSound(w, v, closed, gaveUp, t);
    } else {
      ClaimSound(w, v, w.directory[action.sid], closed, gaveUp, t);
    }
  }

  lemma HandleSound(w: World, action: Action, closed: Option<nat>, gaveUp: nat, t: nat)
    requires w.reader.Busy? && Registry(w) && Sound(w, closed, gaveUp, t)
    ensures Sound(HandleStep(w, action), ClosedNow(w, Handle(action), closed), gaveUp, t)
  {
    var v := HandleStep(w, action);
    if v != w {
      HandleShape(w, action);
      match action
      case Prompt(_, _) => PromptSound(w, action, closed, gaveUp, t);
      case Open(sid, _, _, _) => OpenSound(w, v, sid, closed, gaveUp, t);
      case Close(sid, archive) => CloseSound(w, sid, archive, closed, gaveUp, t);
      case _ => AloofSound(w, v, closed, gaveUp, t);
    }
  }

  // A close that gives up has not done so for that turn before.
  lemma CloseOnSound(w: World, closed: Option<nat>, gaveUp: nat, t: nat)
    requires w.reader.Busy? && Closing(w.reader.work) && Registry(w) && Sound(w, closed, gaveUp, t)
    ensures Sound(CloseOn(w), closed, gaveUp + GivesUpOn(w, Proceed, closed, t), t)
  {
    CloseShape(w);
    var s := w.reader.work.session;
    assert SidOf(CloseOn(w), s) == SidOf(w, s);
    if w.reader.work.ClosingRemove? {
      assert forall sid :: sid in w.directory && w.directory[sid] == s ==> sid == SidOf(w, s);
    }
  }

  lemma ProceedSound(w: World, closed: Option<nat>, gaveUp: nat, t: nat)
    requires w.reader.Busy? && Registry(w) && Sound(w, closed, gaveUp, t)
    ensures Sound(ProceedStep(w), closed, gaveUp + GivesUpOn(w, Proceed, closed, t), t)
  {
    if w.reader.work.ConvertingPrompt? {
      ConvertShape(w);
      AloofSound(w, Convert(w), closed, gaveUp, t);
    } else if Closing(w.reader.work) {
      CloseOnSound(w, closed, gaveUp, t);
    } else {
      ProceedShape(w);
      AloofSound(w, ProceedStep(w), closed, gaveUp, t);
    }
  }

  lemma ResolveSound(w: World, closed: Option<nat>, gaveUp: nat, t: nat)
    requires w.reader.Busy? && Sound(w, closed, gaveUp, t)
    ensures Sound(ResolveStep(w), closed, gaveUp, t)
  {
    var r := w.reader;
    if WithdrawsNext(w) {
      WithdrawShape(if r.batch then w.(pending := w.pending - {r.slips[|r.results|].id}) else w,
                    r.answers[|r.results|].turn);
    }
    AloofSound(w, ResolveStep(w), closed, gaveUp, t);
  }

  lemma ReplySound(w: World, closed: Option<nat>, gaveUp: nat, t: nat)
    requires w.reader.Busy? && Sound(w, closed, gaveUp, t)
    ensures Sound(ReplyStep(w), closed, gaveUp, t)
  {
    assert SameSessions(w, ReplyStep(w));
    AloofSound(w, ReplyStep(w), closed, gaveUp, t);
  }

  lemma EdgeSound(w: World, step: Step, closed: Option<nat>, gaveUp: nat, t: nat)
    requires Sound(w, closed, gaveUp, t) && !IsTaskStep(step)
    requires w.reader.Busy? ==> !step.Handle? && !step.Proceed?
    ensures Sound(ReaderStep(w, step), closed, gaveUp, t)
  {
    var v := ReaderStep(w, step);
    match w.reader
    case Ready => if step.Read? { ReadShape(w, step.line); AloofSound(w, v, closed, gaveUp, t); }
    case Starting(_, _) => if step.Start? { StartShape(w); AloofSound(w, v, closed, gaveUp, t); }
    case Busy(_, _, _, _, _, _, _) =>
      if step.Resolve? {
        ResolveSound(w, closed, gaveUp, t);
      } else if step.TimeOut? && w.reader.work.ClosingWait? {
        TimeOutShape(w);
      } else if step.SendReply? {
        ReplySound(w, closed, gaveUp, t);
      }
  }

  lemma StepSound(w: World, step: Step, closed: Option<nat>, gaveUp: nat, t: nat)
    requires Registry(w) && Sound(w, closed, gaveUp, t)
    ensures Sound(Next(w, step), ClosedNow(w, step, closed), gaveUp + GivesUpOn(w, step, closed, t), t)
  {
    if IsTaskStep(step) {
      if step.t < |w.turns| { TaskSound(w, step, step.t, closed, gaveUp, t); }
    } else if w.reader.Busy? && step.Handle? {
      HandleSound(w, step.action, closed, gaveUp, t);
    } else if w.reader.Busy? && step.Proceed? {
      ProceedSound(w, closed, gaveUp, t);
    } else {
      EdgeSound(w, step, closed, gaveUp, t);
    }
  }

  lemma {:induction false} RunSound(steps: seq<Step>, t: nat)
    ensures Sound(Run(INITIAL, steps), LastClosed(steps), GaveUp(steps, t), t)
    decreases |steps|
  {
    if steps != [] {
      var front, last := steps[..|steps| - 1], steps[|steps| - 1];
      RunSound(front, t);
      RunKeepsBasic(INITIAL, front);
      StepSound(Run(INITIAL, front), last, LastClosed(front), GaveUp(front, t), t);
    }
  }

  // -------------------------------------------------------------------- counting

  lemma GivesUpTells(w: World, step: Step)
    requires GivesUp(w, step)
    ensures Next(w, step).sink == w.sink + [Notice(None, SidOf(w, w.reader.work.session), U.Idle(U.Cancelled))]
  {
  }

  lemma SinkGrows(w: World, step: Step)
    requires Registry(w)
    ensures var v := Next(w, step);
      v.sink == w.sink || (|v.sink| == |w.sink| + 1 && v.sink == w.sink + [v.sink[|w.sink|]])
  {
    if !IsTaskStep(step) {
      ReaderAside(w, step);
    } else if step.t < |w.turns| {
      TaskShape(w, step, step.t);
    }
  }

  lemma {:induction false} SeenCounts(steps: seq<Step>, t: nat)
    ensures |Seen(steps, t)| == |IdlesFrom(Run(INITIAL, steps).sink, t)| + GaveUp(steps, t)
    decreases |steps|
  {
    if steps != [] {
      var front, last := steps[..|steps| - 1], steps[|steps| - 1];
      var w, v := Run(INITIAL, front), Run(INITIAL, steps);
      SeenCounts(front, t);
      RunKeepsBasic(INITIAL, front);
      SinkGrows(w, last);
      if v.sink != w.sink { IdlesOneMore(w.sink, v.sink[|w.sink|], t); }
      if GivesUp(w, last) { GivesUpTells(w, last); }
    }
  }

  // ------------------------------------------------------------------- theorems

  // About a finished turn the client sees its worker's idle updates and, if a
  // close gave up waiting for it, one more: more than one altogether exactly if
  // there were several results, or a close gave up on a turn whose worker had a
  // result or found its stream over with the mark set.
  lemma {:induction false} SeenTwiceExactly(steps: seq<Step>, w: World, t: nat)
    requires w == Run(INITIAL, steps) && HasFinished(w, t)
    ensures GaveUp(steps, t) <= 1 && |Seen(steps, t)| == |IdlesFrom(w.sink, t)| + GaveUp(steps, t)
    ensures |Seen(steps, t)| > 1 <==>
      w.turns[t].results > 1 || (GaveUp(steps, t) == 1 && (w.turns[t].results == 1 || MarkSeenAtEnd(steps, t)))
  {
    RunSound(steps, t);
    SeenCounts(steps, t);
    ReasonsExactly(steps, w, t);
  }

  // ------------------------------------------------------------ the failing run

  const CLOSE: Entry := Request(Null, "session/close", None)

  const CLOSE_LINE: Line := Parsed(JObj(map["id" := JNull, "method" := JStr("session/close")]))

  lemma CloseParses()
    ensures FrameOf(CLOSE_LINE) == Ok(Some(Single(CLOSE)))
  {
  }

  // The close marks the turn; the abort is still to come.
  lemma CloseMarks(w: World)
    requires TurnWitnesses.At(w, Polling, [], 0, false) && w.reader.Ready?
    ensures var a := Next(w, Read(CLOSE_LINE)); var v := Next(a, Handle(Close("s", None)));
      && ClosesTurn(a, Handle(Close("s", None))) && SlotOf(a, a.directory["s"]).turn == 0
      && TurnWitnesses.At(v, Polling, [], 0, true)
      && v.reader.Busy? && v.reader.work == ClosingAbort(0, None, true)
  {
    CloseParses();
    TurnBreaks.LineTaken(w, CLOSE_LINE, CLOSE);
    var a := Next(w, Read(CLOSE_LINE));
    var v := Next(a, Handle(Close("s", None)));
    assert v.sessions == [Session("s", false, Claimed(0, true), false)] && v.sink == w.sink && v.turns == w.turns;
  }

  // The close has the engine aborted, waits in vain and says so.
  lemma WaitsInVain(w: World)
    requires w.sessions == [Session("s", false, Claimed(0, true), false)]
    requires w.reader.Busy? && w.reader.work == ClosingAbort(0, None, true)
    ensures var b := Next(Next(w, Proceed), TimeOut);
      GivesUp(b, Proceed) && Next(b, Proceed).turns == w.turns && b.turns == w.turns
  {
    var a := Next(w, Proceed);
    assert a.reader.work == ClosingWait(0, None) && a.turns == w.turns;
  }

  // The worker, its stream over, tells as much and is done.
  lemma TellsAndLeaves(w: World)
    requires w.turns == [Turn(0, Ended(true), U.FRESH, 0)]
    ensures var v := Next(Next(w, SendIdle(0)), Leave(0));
      v.turns == [Turn(0, Done(true), U.FRESH, 0)] && IdlesFrom(v.sink, 0) != []
  {
    SendsCancelled(w, 0);
    IdlesOneMore(w.sink, Notice(Some(0), SidFor(w, 0), U.Idle(U.Cancelled)), 0);
    assert Next(w, SendIdle(0)).turns == [Turn(0, Leaving, U.FRESH, 0)];
  }

  lemma OneMoreClosed(steps: seq<Step>, step: Step, t: nat)
    ensures LastClosed(steps + [step]) == ClosedNow(Run(INITIAL, steps), step, LastClosed(steps))
    ensures GaveUp(steps + [step], t) == GaveUp(steps, t) + GivesUpOn(Run(INITIAL, steps), step, LastClosed(steps), t)
    ensures Run(INITIAL, steps + [step]) == Next(Run(INITIAL, steps), step)
  {
    assert (steps + [step])[..|steps|] == steps;
  }

  lemma ClosingTurn() returns (steps: seq<Step>)
    ensures LastClosed(steps) == Some(0)
    ensures var w := Run(INITIAL, steps);
      TurnWitnesses.At(w, Ended(true), [], 0, true) && w.reader.Busy? && w.reader.work == ClosingAbort(0, None, true)
  {
    var front := TurnWitnesses.TaskPolling();
    CloseMarks(Run(INITIAL, front));
    OneMoreClosed(front, Read(CLOSE_LINE), 0);
    OneMoreClosed(front + [Read(CLOSE_LINE)], Handle(Close("s", None)), 0);
    var marked := front + [Read(CLOSE_LINE)] + [Handle(Close("s", None))];
    OneMoreClosed(marked, EndStream(0), 0);
    TurnWitnesses.Ends(INITIAL, marked, [], 0, true);
    steps := marked + [EndStream(0)];
  }

  lemma GivenUp() returns (steps: seq<Step>)
    ensures GaveUp(steps, 0) > 0 && Run(INITIAL, steps).turns == [Turn(0, Ended(true), U.FRESH, 0)]
  {
    var front := ClosingTurn();
    WaitsInVain(Run(INITIAL, front));
    OneMoreClosed(front, Proceed, 0);
    OneMoreClosed(front + [Proceed], TimeOut, 0);
    OneMoreClosed(front + [Proceed] + [TimeOut], Proceed, 0);
    steps := front + [Proceed] + [TimeOut] + [Proceed];
  }

  // The client closes a session whose worker has just found its stream over: the
  // close gives up waiting and sends an idle update, and so does the worker.
  lemma SeenTwice() returns (steps: seq<Step>)
    ensures HasFinished(Run(INITIAL, steps), 0) && Run(INITIAL, steps).turns[0].results == 0
    ensures GaveUp(steps, 0) == 1 && |Seen(steps, 0)| == 2
  {
    var front := GivenUp();
    TellsAndLeaves(Run(INITIAL, front));
    OneMoreClosed(front, SendIdle(0), 0);
    OneMoreClosed(front + [SendIdle(0)], Leave(0), 0);
    steps := front + [SendIdle(0)] + [Leave(0)];
    SeenTwiceExactly(steps, Run(INITIAL, steps), 0);
    ReasonsExactly(steps, Run(INITIAL, steps), 0);
  }
}
