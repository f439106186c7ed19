/** Cancellation is not lost: what a task tells the client about the end of its
    turn, and when that is "cancelled". */
module TurnCancellation {
  import opened Wrappers
  import opened Turns
  import opened TurnExclusivity
  import opened TurnOwnership
  import TurnAck
  import TurnAnswers
  import U = UpdateMapper

  // The reasons of the idle updates among `updates`, and among those a task sent.
  function IdlesIn(updates: seq<U.Update>): seq<U.StopReason> {
    if updates == [] then []
    else (if updates[0].Idle? then [updates[0].reason] else []) + IdlesIn(updates[1..])
  }

  function IdlesFrom(sink: seq<Frame>, t: nat): seq<U.StopReason> {
    if sink == [] then []
    else IdlesFrom(sink[..|sink| - 1], t) + IdleOf(sink[|sink| - 1], t)
  }

  function IdleOf(frame: Frame, t: nat): seq<U.StopReason> {
    if frame.Notice? && frame.from == Some(t) && frame.update.Idle? then [frame.update.reason] else []
  }

  // Sent, or about to be.
  function Told(w: World, t: nat): seq<U.StopReason>
    requires t < |w.turns|
  {
    IdlesFrom(w.sink, t) + (if w.turns[t].phase.Sending? then IdlesIn(w.turns[t].phase.outbox) else [])
  }

  lemma IdlesOneMore(sink: seq<Frame>, frame: Frame, t: nat)
    ensures IdlesFrom(sink + [frame], t) == IdlesFrom(sink, t) + IdleOf(frame, t)
  {
    assert (sink + [frame])[..|sink|] == sink;
  }

  lemma {:induction false} NoIdles(updates: seq<U.Update>)
    requires forall a :: 0 <= a < |updates| ==> !updates[a].Idle?
    ensures IdlesIn(updates) == []
  {
    if updates != [] { NoIdles(updates[1..]); }
  }

  // ------------------------------------------------------- one idle per result

  // A turn tells of one idle per result; with no result, of one when it ends
  // cancelled and of none otherwise.
  predicate Tally(phase: Phase, told: seq<U.StopReason>, results: nat) {
    if !HasRun(phase) then told == [] && results == 0
    else if phase.ResultRead? then |told| + 1 == results
    else if phase.Leaving? || phase.Done? then |told| == results || (results == 0 && told == [U.Cancelled])
    else |told| == results
  }

  ghost predicate Tallied(w: World) {
    forall t :: 0 <= t < |w.turns| ==> Tally(w.turns[t].phase, Told(w, t), w.turns[t].results)
  }

  // The idle a step of the task adds.
  function NewIdles(w: World, step: Step, t: nat): seq<U.StopReason>
    requires t < |w.turns|
  {
    var turn := w.turns[t];
    if step.MapRead? && turn.phase.ResultRead? then [ReasonRead(w, t)]
    else if step.SendIdle? && turn.phase.Ended? && turn.phase.cancelled && turn.results == 0 then [U.Cancelled]
    else []
  }

  function ReasonRead(w: World, t: nat): U.StopReason
    requires t < |w.turns| && w.turns[t].phase.ResultRead?
  {
    var turn := w.turns[t];
    var aborted := turn.session < |w.sessions| && w.sessions[turn.session].aborted;
    U.StopReasonOf(turn.phase.result, if turn.phase.cancelled || aborted then Some(U.Cancelled) else None)
  }

  lemma SilentTold(w: World, step: Step, t: nat)
    requires t < |w.turns| && !Tells(step) && !step.Poll? && !step.MapRead?
    ensures TaskStep(w, step, t).sink == w.sink && Told(TaskStep(w, step, t), t) == Told(w, t)
    ensures TaskStep(w, step, t).turns[t].results == w.turns[t].results
  {
  }

  lemma PollTold(w: World, t: nat, msg: U.SdkMessage)
    requires t < |w.turns|
    ensures var v := TaskStep(w, Poll(t, msg), t);
      && Told(v, t) == Told(w, t)
      && v.turns[t].results == w.turns[t].results + (if w.turns[t].phase.Polling? && msg.Result? then 1 else 0)
  {
    var turn := w.turns[t];
    if turn.phase.Polling? && !msg.Result? {
      var brief := turn.session < |w.sessions| && w.sessions[turn.session].structuredBrief;
      U.OnlyResultIsIdle(turn.mapper, msg, brief);
      NoIdles(U.MapMessage(turn.mapper, msg, brief).0);
    }
  }

  lemma MapReadTold(w: World, t: nat)
    requires t < |w.turns| && w.turns[t].phase.ResultRead?
    ensures var v := TaskStep(w, MapRead(t), t);
      Told(v, t) == Told(w, t) + [ReasonRead(w, t)] && v.turns[t].results == w.turns[t].results
  {
    var outbox := TaskStep(w, MapRead(t), t).turns[t].phase.outbox;
    assert outbox == [U.Usage, U.Idle(ReasonRead(w, t))];
    assert outbox[1..] == [U.Idle(ReasonRead(w, t))] && outbox[1..][1..] == [];
    assert IdlesIn(outbox[1..]) == [ReasonRead(w, t)];
  }

  lemma Regrouped(a: seq<U.StopReason>, b: seq<U.StopReason>, c: seq<U.StopReason>)
    ensures (a + b) + c == a + (b + c)
  {
  }

  lemma IdlesFirst(outbox: seq<U.Update>, sid: string, t: nat)
    requires outbox != []
    ensures IdlesIn(outbox) == IdleOf(Notice(Some(t), sid, outbox[0]), t) + IdlesIn(outbox[1..])
  {
  }

  lemma EmittedIdles(sink: seq<Frame>, sid: string, outbox: seq<U.Update>, t: nat)
    requires outbox != []
    ensures IdlesFrom(sink + [Notice(Some(t), sid, outbox[0])], t) + IdlesIn(outbox[1..])
      == IdlesFrom(sink, t) + IdlesIn(outbox)
  {
    var frame := Notice(Some(t), sid, outbox[0]);
    IdlesOneMore(sink, frame, t);
    IdlesFirst(outbox, sid, t);
    Regrouped(IdlesFrom(sink, t), IdleOf(frame, t), IdlesIn(outbox[1..]));
  }

  function SidFor(w: World, t: nat): string
    requires t < |w.turns|
  {
    SidOf(w, w.turns[t].session)
  }

  lemma EmitTold(w: World, t: nat)
    requires t < |w.turns|
    ensures var v := TaskStep(w, Emit(t), t);
      Told(v, t) == Told(w, t) && v.turns[t].results == w.turns[t].results
  {
    var v, phase := TaskStep(w, Emit(t), t), w.turns[t].phase;
    if phase.Sending? && phase.outbox != [] {
      EmittedIdles(w.sink, SidFor(w, t), phase.outbox, t);
      assert v.sink == w.sink + [Notice(Some(t), SidFor(w, t), phase.outbox[0])];
      assert v.turns[t].phase == Sending(phase.outbox[1..]);
    }
  }

  lemma AnnounceTold(w: World, t: nat)
    requires t < |w.turns|
    ensures var v := TaskStep(w, Announce(t), t);
      Told(v, t) == Told(w, t) && v.turns[t].results == w.turns[t].results
  {
    IdlesOneMore(w.sink, Notice(Some(t), SidFor(w, t), U.Running), t);
  }

  predicate SaysCancelled(w: World, t: nat)
    requires t < |w.turns|
  {
    w.turns[t].phase == Ended(true) && w.turns[t].results == 0
  }

  lemma SendsNothing(w: World, t: nat)
    requires t < |w.turns| && !SaysCancelled(w, t)
    ensures var v := TaskStep(w, SendIdle(t), t);
      v.sink == w.sink && v.turns[t].results == w.turns[t].results && Told(v, t) == Told(w, t)
  {
  }

  lemma SendsCancelled(w: World, t: nat)
    requires t < |w.turns| && SaysCancelled(w, t)
    ensures var v := TaskStep(w, SendIdle(t), t);
      && v.sink == w.sink + [Notice(Some(t), SidFor(w, t), U.Idle(U.Cancelled))]
      && v.turns[t] == w.turns[t].(phase := Leaving)
  {
  }

  lemma SendIdleTold(w: World, t: nat)
    requires t < |w.turns|
    ensures var v := TaskStep(w, SendIdle(t), t);
      Told(v, t) == Told(w, t) + NewIdles(w, SendIdle(t), t) && v.turns[t].results == w.turns[t].results
  {
    if SaysCancelled(w, t) {
      SendsCancelled(w, t);
      IdlesOneMore(w.sink, Notice(Some(t), SidFor(w, t), U.Idle(U.Cancelled)), t);
    } else {
      SendsNothing(w, t);
    }
  }

  lemma ExtraTold(w: World, t: nat, update: U.Update)
    requires t < |w.turns|
    ensures var v := TaskStep(w, Extra(t, update), t);
      Told(v, t) == Told(w, t) && v.turns == w.turns
  {
    IdlesOneMore(w.sink, Notice(Some(t), SidFor(w, t), update), t);
  }

  function ResultsSeen(w: World, step: Step, t: nat): nat
    requires t < |w.turns|
  {
    w.turns[t].results + (if step.Poll? && w.turns[t].phase.Polling? && step.msg.Result? then 1 else 0)
  }

  lemma StepTold(w: World, step: Step, t: nat)
    requires t < |w.turns| && IsTaskStep(step) && step.t == t
    ensures var v := TaskStep(w, step, t);
      && Told(v, t) == Told(w, t) + NewIdles(w, step, t)
      && v.turns[t].results == ResultsSeen(w, step, t)
  {
    match step
    case Poll(_, msg) => PollTold(w, t, msg);
    case MapRead(_) => if w.turns[t].phase.ResultRead? { MapReadTold(w, t); }
    case Emit(_) => EmitTold(w, t);
    case Announce(_) => AnnounceTold(w, t);
    case SendIdle(_) => SendIdleTold(w, t);
    case Extra(_, update) => ExtraTold(w, t, update);
    case _ => SilentTold(w, step, t);
  }

  // The other turns hear nothing of it.
  lemma OthersTold(w: World, step: Step, t: nat, u: nat)
    requires t < |w.turns| && u < |w.turns| && u != t
    ensures var v := TaskStep(w, step, t); v.turns[u] == w.turns[u] && Told(v, u) == Told(w, u)
  {
    var v := TaskStep(w, step, t);
    TaskShape(w, step, t);
    if v.sink != w.sink { IdlesOneMore(w.sink, v.sink[|w.sink|], u); }
  }

  lemma PhaseTally(w: World, step: Step, t: nat, told: seq<U.StopReason>)
    requires t < |w.turns| && IsTaskStep(step) && step.t == t
    requires Tally(w.turns[t].phase, told, w.turns[t].results)
    ensures Tally(TaskStep(w, step, t).turns[t].phase, told + NewIdles(w, step, t), ResultsSeen(w, step, t))
  {
  }

  lemma OwnTally(w: World, step: Step, t: nat)
    requires t < |w.turns| && IsTaskStep(step) && step.t == t
    requires Tally(w.turns[t].phase, Told(w, t), w.turns[t].results)
    ensures var v := TaskStep(w, step, t); Tally(v.turns[t].phase, Told(v, t), v.turns[t].results)
  {
    StepTold(w, step, t);
    PhaseTally(w, step, t, Told(w, t));
  }

  lemma TaskKeepsTally(w: World, step: Step, t: nat)
    requires t < |w.turns| && IsTaskStep(step) && step.t == t && Tallied(w)
    ensures Tallied(TaskStep(w, step, t))
  {
    var v := TaskStep(w, step, t);
    TaskShape(w, step, t);
    forall u | 0 <= u < |v.turns| ensures Tally(v.turns[u].phase, Told(v, u), v.turns[u].results) {
      if u == t { OwnTally(w, step, t); } else { OthersTold(w, step, t, u); }
    }
  }

  // The reader sends nothing in a task's name, and moves only turns that have
  // not run.
  ghost predicate Aside(w: World, v: World) {
    && |w.turns| <= |v.turns|
    && (v.sink == w.sink
        || (|v.sink| == |w.sink| + 1 && v.sink == w.sink + [v.sink[|w.sink|]]
            && (v.sink[|w.sink|].Notice? ==> v.sink[|w.sink|].from == None)))
    && (forall t :: 0 <= t < |w.turns| ==>
         v.turns[t] == w.turns[t]
         || (v.turns[t] == w.turns[t].(phase := v.turns[t].phase) && !HasRun(w.turns[t].phase)
           && !HasRun(v.turns[t].phase)))
    && (forall t :: |w.turns| <= t < |v.turns| ==> !HasRun(v.turns[t].phase) && v.turns[t].results == 0)
  }

  lemma ProceedAside(w: World)
    requires w.reader.Busy?
    ensures Aside(w, ProceedStep(w))
  {
    if w.reader.work.ConvertingPrompt? {
      ConvertShape(w);
      assert Convert(w).sink == w.sink;
    } else {
      TurnAck.ProceedTells(w);
    }
  }

  lemma HandleAside(w: World, action: Action)
    requires w.reader.Busy? && Registry(w)
    ensures Aside(w, HandleStep(w, action))
  {
    if HandleStep(w, action) != w {
      HandleShape(w, action);
      TurnAnswers.HandleSlips(w, action);
    }
  }

  lemma ResolveAside(w: World)
    requires w.reader.Busy?
    ensures Aside(w, ResolveStep(w))
  {
    var r := w.reader;
    if WithdrawsNext(w) {
      WithdrawShape(if r.batch then w.(pending := w.pending - {r.slips[|r.results|].id}) else w,
                    r.answers[|r.results|].turn);
    }
  }

  lemma ReplyAside(w: World)
    requires w.reader.Busy?
    ensures Aside(w, ReplyStep(w))
  {
    assert SameSessions(w, ReplyStep(w));
  }

  lemma BusyAside(w: World, step: Step)
    requires Registry(w) && w.reader.Busy?
    ensures Aside(w, ReaderStep(w, step))
  {
    match step
    case Handle(action) => HandleAside(w, action);
    case Proceed => ProceedAside(w);
    case TimeOut => if w.reader.work.ClosingWait? { TimeOutShape(w); }
    case Resolve => ResolveAside(w);
    case SendReply => ReplyAside(w);
    case _ =>
  }

  lemma ReaderAside(w: World, step: Step)
    requires Registry(w)
    ensures Aside(w, ReaderStep(w, step))
  {
    match w.reader
    case Ready => if step.Read? { ReadShape(w, step.line); }
    case Starting(_, _) => if step.Start? { StartShape(w); }
    case Busy(_, _, _, _, _, _, _) => BusyAside(w, step);
  }

  lemma AsideTold(w: World, v: World, t: nat)
    requires Aside(w, v) && t < |w.turns|
    ensures Told(v, t) == Told(w, t)
  {
    if v.sink != w.sink { IdlesOneMore(w.sink, v.sink[|w.sink|], t); }
  }

  // Nobody speaks for a turn that does not exist yet.
  ghost predicate NoGhosts(w: World) {
    forall t: nat :: t >= |w.turns| ==> IdlesFrom(w.sink, t) == []
  }

  lemma AsideKeepsTally(w: World, v: World)
    requires Aside(w, v) && Tallied(w) && NoGhosts(w)
    ensures Tallied(v) && NoGhosts(v)
  {
    forall t: nat | t >= |w.turns| ensures IdlesFrom(v.sink, t) == [] {
      if v.sink != w.sink { IdlesOneMore(w.sink, v.sink[|w.sink|], t); }
    }
    forall t | 0 <= t < |v.turns| ensures Tally(v.turns[t].phase, Told(v, t), v.turns[t].results) {
      if t < |w.turns| { AsideTold(w, v, t); }
    }
  }

  lemma TaskKeepsGhosts(w: World, step: Step, t: nat)
    requires t < |w.turns| && NoGhosts(w)
    ensures NoGhosts(TaskStep(w, step, t))
  {
    var v := TaskStep(w, step, t);
    TaskShape(w, step, t);
    forall u: nat | u >= |v.turns| ensures IdlesFrom(v.sink, u) == [] {
      if v.sink != w.sink { IdlesOneMore(w.sink, v.sink[|w.sink|], u); }
    }
  }

  lemma {:induction false} RunTallies(steps: seq<Step>)
    ensures Tallied(Run(INITIAL, steps)) && NoGhosts(Run(INITIAL, steps))
    decreases |steps|
  {
    if steps != [] {
      var front, last := steps[..|steps| - 1], steps[|steps| - 1];
      var w := Run(INITIAL, front);
      RunTallies(front);
      if !IsTaskStep(last) {
        RunKeepsBasic(INITIAL, front);
        ReaderAside(w, last);
        AsideKeepsTally(w, ReaderStep(w, last));
      } else if last.t < |w.turns| {
        TaskKeepsTally(w, last, last.t);
        TaskKeepsGhosts(w, last, last.t);
      }
    }
  }

  // A finished task has told of exactly one idle per result it saw; if it saw
  // none, of at most one, and that one "cancelled".
  lemma {:induction false} OneIdlePerResult(steps: seq<Step>, t: nat)
    requires t < |Run(INITIAL, steps).turns| && Run(INITIAL, steps).turns[t].phase == Done(true)
    ensures var w := Run(INITIAL, steps);
      |IdlesFrom(w.sink, t)| == w.turns[t].results || (w.turns[t].results == 0 && IdlesFrom(w.sink, t) == [U.Cancelled])
  {
    RunTallies(steps);
    assert Told(Run(INITIAL, steps), t) == IdlesFrom(Run(INITIAL, steps).sink, t);
  }

  // ----------------------------------------------------------- marked cancelled

  // The turn holds its session's slot, marked for cancellation.
  ghost predicate Flagged(w: World, t: nat) {
    Holds(w, t) && w.sessions[w.turns[t].session].slot.cancelRequested
  }

  // Nobody takes or clears the turn's slot, until its task has cleared it itself.
  ghost predicate KeepsSlot(w: World, steps: seq<Step>, t: nat)
    decreases |steps|
  {
    steps == []
    || (KeepsSlot(w, steps[..|steps| - 1], t)
        && t < |Run(w, steps).turns| && (Run(w, steps).turns[t].phase == Done(true) || Holds(Run(w, steps), t)))
  }

  predicate AllCancelled(told: seq<U.StopReason>) {
    forall i :: 0 <= i < |told| ==> told[i].Cancelled?
  }

  ghost predicate StaysCancelled(w: World, t: nat) {
    && t < |w.turns| && AllCancelled(Told(w, t))
    && (w.turns[t].phase.ResultRead? ==> w.turns[t].phase.cancelled)
    && (w.turns[t].phase.Ended? ==> w.turns[t].phase.cancelled)
    && (w.turns[t].phase.Leaving? || w.turns[t].phase == Done(true) ==> Told(w, t) != [])
    && (w.turns[t].phase == Done(true) || Flagged(w, t))
  }

  // A step clears the mark only by taking the slot away.
  lemma TaskKeepsFlag(w: World, step: Step, u: nat, t: nat)
    requires Flagged(w, t) && u < |w.turns| && Holds(TaskStep(w, step, u), t)
    ensures Flagged(TaskStep(w, step, u), t)
  {
    TaskShape(w, step, u);
  }

  lemma HandleKeepsFlag(w: World, action: Action, t: nat)
    requires Flagged(w, t) && w.reader.Busy? && Registry(w) && Holds(HandleStep(w, action), t)
    ensures Flagged(HandleStep(w, action), t)
  {
    if HandleStep(w, action) != w {
      HandleShape(w, action);
      HandleAside(w, action);
    }
  }

  lemma ProceedKeepsFlag(w: World, t: nat)
    requires Flagged(w, t) && w.reader.Busy? && Holds(ProceedStep(w), t)
    ensures Flagged(ProceedStep(w), t)
  {
    if w.reader.work.ConvertingPrompt? {
      ConvertShape(w);
    } else if Closing(w.reader.work) {
      CloseShape(w);
    } else {
      ProceedShape(w);
    }
  }

  lemma ReaderKeepsFlag(w: World, step: Step, t: nat)
    requires Flagged(w, t) && Registry(w) && Holds(ReaderStep(w, step), t)
    ensures Flagged(ReaderStep(w, step), t)
  {
    match w.reader
    case Ready => if step.Read? { ReadShape(w, step.line); }
    case Starting(_, _) => if step.Start? { StartShape(w); ReaderAside(w, step); }
    case Busy(_, _, _, _, _, _, _) =>
      match step {
        case Handle(action) => HandleKeepsFlag(w, action, t);
        case Proceed => ProceedKeepsFlag(w, t);
        case TimeOut => if w.reader.work.ClosingWait? { TimeOutShape(w); }
        case Resolve => ResolveKeepsFlag(w, t);
        case SendReply => assert SameSessions(w, ReplyStep(w));
        case _ =>
      }
  }

  lemma ResolveKeepsFlag(w: World, t: nat)
    requires Flagged(w, t) && w.reader.Busy? && Holds(ResolveStep(w), t)
    ensures Flagged(ResolveStep(w), t)
  {
    var r := w.reader;
    if WithdrawsNext(w) {
      WithdrawShape(if r.batch then w.(pending := w.pending - {r.slips[|r.results|].id}) else w,
                    r.answers[|r.results|].turn);
    }
  }

  // The task reads the mark as set.
  lemma OwnReadings(w: World, step: Step, t: nat)
    requires StaysCancelled(w, t) && IsTaskStep(step) && step.t == t
    ensures var p := TaskStep(w, step, t).turns[t].phase;
      (p.ResultRead? ==> p.cancelled) && (p.Ended? ==> p.cancelled)
  {
    if step.Poll? {
      assert w.turns[t].phase.Polling? && step.msg.Result? ==>
        TaskStep(w, step, t).turns[t].phase == ResultRead(step.msg.result, SlotOf(w, w.turns[t].session).Cancelled());
    } else if step.EndStream? {
      assert w.turns[t].phase.Polling? ==>
        TaskStep(w, step, t).turns[t].phase == Ended(SlotOf(w, w.turns[t].session).Cancelled());
    } else {
      assert TaskStep(w, step, t).turns[t].phase.ResultRead? || TaskStep(w, step, t).turns[t].phase.Ended? ==>
        TaskStep(w, step, t).turns[t].phase == w.turns[t].phase;
    }
  }

  // What it adds is "cancelled", and by the time it leaves it has said so.
  lemma OwnIdles(w: World, step: Step, t: nat)
    requires StaysCancelled(w, t) && IsTaskStep(step) && step.t == t
    requires Tally(w.turns[t].phase, Told(w, t), w.turns[t].results)
    ensures AllCancelled(NewIdles(w, step, t))
    ensures var p := TaskStep(w, step, t).turns[t].phase;
      p.Leaving? || p == Done(true) ==> Told(w, t) != [] || NewIdles(w, step, t) != []
  {
  }

  lemma OwnFlag(w: World, step: Step, t: nat)
    requires StaysCancelled(w, t) && t < |w.turns|
    requires TaskStep(w, step, t).turns[t].phase == Done(true) || Holds(TaskStep(w, step, t), t)
    ensures TaskStep(w, step, t).turns[t].phase == Done(true) || Flagged(TaskStep(w, step, t), t)
  {
    TaskPhases(w, step, t);
    if Flagged(w, t) && Holds(TaskStep(w, step, t), t) { TaskKeepsFlag(w, step, t, t); }
  }

  lemma CancelledSoFar(w: World, v: World, t: nat, more: seq<U.StopReason>)
    requires StaysCancelled(w, t) && t < |v.turns| && Told(v, t) == Told(w, t) + more && AllCancelled(more)
    requires (v.turns[t].phase.ResultRead? ==> v.turns[t].phase.cancelled)
    requires (v.turns[t].phase.Ended? ==> v.turns[t].phase.cancelled)
    requires v.turns[t].phase.Leaving? || v.turns[t].phase == Done(true) ==> Told(w, t) != [] || more != []
    requires v.turns[t].phase == Done(true) || Flagged(v, t)
    ensures StaysCancelled(v, t)
  {
  }

  lemma OwnStaysCancelled(w: World, step: Step, t: nat)
    requires StaysCancelled(w, t) && IsTaskStep(step) && step.t == t
    requires Tally(w.turns[t].phase, Told(w, t), w.turns[t].results)
    requires TaskStep(w, step, t).turns[t].phase == Done(true) || Holds(TaskStep(w, step, t), t)
    ensures StaysCancelled(TaskStep(w, step, t), t)
  {
    StepTold(w, step, t);
    OwnReadings(w, step, t);
    OwnIdles(w, step, t);
    OwnFlag(w, step, t);
    CancelledSoFar(w, TaskStep(w, step, t), t, NewIdles(w, step, t));
  }

  lemma AsideStaysCancelled(w: World, v: World, t: nat)
    requires StaysCancelled(w, t) && Aside(w, v) && (v.turns[t].phase == Done(true) || Flagged(v, t))
    ensures StaysCancelled(v, t)
  {
    AsideTold(w, v, t);
  }

  lemma ReaderFlags(w: World, step: Step, t: nat)
    requires StaysCancelled(w, t) && Registry(w)
    requires t < |ReaderStep(w, step).turns|
    requires ReaderStep(w, step).turns[t].phase == Done(true) || Holds(ReaderStep(w, step), t)
    ensures Aside(w, ReaderStep(w, step))
    ensures ReaderStep(w, step).turns[t].phase == Done(true) || Flagged(ReaderStep(w, step), t)
  {
    ReaderAside(w, step);
    if Flagged(w, t) && Holds(ReaderStep(w, step), t) { ReaderKeepsFlag(w, step, t); }
  }

  lemma OtherStaysCancelled(w: World, step: Step, u: nat, t: nat)
    requires StaysCancelled(w, t) && u < |w.turns| && u != t
    requires w.turns[t].phase == Done(true) || Holds(TaskStep(w, step, u), t)
    ensures StaysCancelled(TaskStep(w, step, u), t)
  {
    OthersTold(w, step, u, t);
    if Flagged(w, t) && Holds(TaskStep(w, step, u), t) { TaskKeepsFlag(w, step, u, t); }
  }

  lemma StepStaysCancelled(w: World, step: Step, t: nat)
    requires StaysCancelled(w, t) && Tallied(w) && Registry(w)
    requires t < |Next(w, step).turns| && (Next(w, step).turns[t].phase == Done(true) || Holds(Next(w, step), t))
    ensures StaysCancelled(Next(w, step), t)
  {
    if !IsTaskStep(step) {
      ReaderFlags(w, step, t);
      AsideStaysCancelled(w, Next(w, step), t);
    } else if step.t == t {
      OwnStaysCancelled(w, step, t);
    } else if step.t < |w.turns| {
      OthersTold(w, step, step.t, t);
      OtherStaysCancelled(w, step, step.t, t);
    }
  }

  lemma {:induction false} RunStaysCancelled(before: seq<Step>, after: seq<Step>, t: nat)
    requires StaysCancelled(Run(INITIAL, before), t) && KeepsSlot(Run(INITIAL, before), after, t)
    ensures StaysCancelled(Run(Run(INITIAL, before), after), t)
    decreases |after|
  {
    if after != [] {
      var front := after[..|after| - 1];
      var w := Run(Run(INITIAL, before), front);
      RunStaysCancelled(before, front, t);
      RunAppend(INITIAL, before, front);
      RunTallies(before + front);
      RunKeepsBasic(INITIAL, before + front);
      StepStaysCancelled(w, after[|after| - 1], t);
    }
  }

  // The turn is marked, and its task has looked at the mark neither for a result
  // nor for the end of the stream.
  ghost predicate MarkedInTime(w: World, t: nat) {
    && Flagged(w, t) && w.turns[t].results == 0
    && !w.turns[t].phase.Ended? && !w.turns[t].phase.Leaving? && !w.turns[t].phase.Done?
  }

  ghost predicate HasFinished(w: World, t: nat) { t < |w.turns| && w.turns[t].phase == Done(true) }

  // From there nothing but losing the slot can lose the cancellation: whatever
  // follows, `reset_abort` included, when the task is done it has told the client
  // "cancelled" once per result, and once if there was none, and nothing else.
  lemma {:induction false} CancellationNotLost(before: seq<Step>, w: World, after: seq<Step>, v: World, t: nat)
    requires w == Run(INITIAL, before) && MarkedInTime(w, t)
    requires v == Run(w, after) && KeepsSlot(w, after, t) && HasFinished(v, t)
    ensures var idles := IdlesFrom(v.sink, t);
      && AllCancelled(idles) && |idles| == (if v.turns[t].results == 0 then 1 else v.turns[t].results)
      && (v.turns[t].results <= 1 ==> idles == [U.Cancelled])
  {
    RunTallies(before);
    RunStaysCancelled(before, after, t);
    RunAppend(INITIAL, before, after);
    RunTallies(before + after);
    assert Told(v, t) == IdlesFrom(v.sink, t);
  }

  // With no prompt cancelled before its start and no close giving up, the slot is
  // never lost, so neither is the cancellation.
  lemma {:induction false} CalmRunsKeepSlot(before: seq<Step>, w: World, after: seq<Step>, t: nat)
    requires w == Run(INITIAL, before) && Calm(INITIAL, before) && Unforced(INITIAL, before)
    requires Calm(w, after) && Unforced(w, after)
    requires t < |w.turns| && Live(w.turns[t].phase)
    ensures KeepsSlot(w, after, t)
    ensures t < |Run(w, after).turns|
    ensures Live(Run(w, after).turns[t].phase) || Run(w, after).turns[t].phase == Done(true)
    decreases |after|
  {
    if after != [] {
      var front, last := after[..|after| - 1], after[|after| - 1];
      CalmRunsKeepSlot(before, w, front, t);
      RunKeeps(INITIAL, before);
      RunKeepsBasic(INITIAL, before);
      RunKeeps(w, front);
      RunKeepsBasic(w, front);
      StepKeeps(Run(w, front), last);
      LiveGoesOn(Run(w, front), last, t);
    }
  }

  // A task's own steps apart, a live task stays as it is or is released.
  predicate GoesOn(turn: Turn, after: Turn) {
    after == turn || (turn.phase.Paused? && after.phase.Signalled?)
  }

  lemma BusyGoesOn(w: World, step: Step, t: nat)
    requires Registry(w) && w.reader.Busy? && !Withdraws(w, step) && t < |w.turns|
      && (Live(w.turns[t].phase) || w.turns[t].phase == Done(true))
    ensures t < |ReaderStep(w, step).turns| && ReaderStep(w, step).turns[t] == w.turns[t]
  {
    match step
    case Handle(action) => if HandleStep(w, action) != w { HandleShape(w, action); }
    case Proceed => ProceedGoesOn(w, t);
    case TimeOut => if w.reader.work.ClosingWait? { TimeOutShape(w); }
    case Resolve => assert SameSessions(w, ResolveStep(w));
    case SendReply => assert SameSessions(w, ReplyStep(w));
    case _ =>
  }

  lemma ReaderGoesOn(w: World, step: Step, t: nat)
    requires Registry(w) && !Withdraws(w, step) && t < |w.turns|
      && (Live(w.turns[t].phase) || w.turns[t].phase == Done(true))
    ensures t < |ReaderStep(w, step).turns| && GoesOn(w.turns[t], ReaderStep(w, step).turns[t])
  {
    match w.reader
    case Ready => if step.Read? { ReadShape(w, step.line); }
    case Starting(_, _) => if step.Start? { StartShape(w); }
    case Busy(_, _, _, _, _, _, _) => BusyGoesOn(w, step, t);
  }

  lemma TaskGoesOn(w: World, step: Step, u: nat, t: nat)
    requires u < |w.turns| && t < |w.turns| && (Live(w.turns[t].phase) || w.turns[t].phase == Done(true))
    ensures var v := TaskStep(w, step, u);
      t < |v.turns| && (Live(v.turns[t].phase) || v.turns[t].phase == Done(true))
  {
    TaskShape(w, step, u);
  }

  lemma LiveGoesOn(w: World, step: Step, t: nat)
    requires Registry(w) && !Withdraws(w, step) && t < |w.turns|
      && (Live(w.turns[t].phase) || w.turns[t].phase == Done(true))
    ensures t < |Next(w, step).turns|
    ensures Live(Next(w, step).turns[t].phase) || Next(w, step).turns[t].phase == Done(true)
  {
    if !IsTaskStep(step) {
      ReaderGoesOn(w, step, t);
    } else if step.t < |w.turns| {
      TaskGoesOn(w, step, step.t, t);
    }
  }

  lemma ProceedGoesOn(w: World, t: nat)
    requires w.reader.Busy? && t < |w.turns| && (Live(w.turns[t].phase) || w.turns[t].phase == Done(true))
    ensures t < |ProceedStep(w).turns| && ProceedStep(w).turns[t] == w.turns[t]
  {
    if w.reader.work.ConvertingPrompt? {
      ConvertShape(w);
    } else if Closing(w.reader.work) {
      CloseShape(w);
    } else {
      ProceedShape(w);
    }
  }
}
