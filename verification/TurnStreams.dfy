/** What a turn streams: the updates its task puts in the output queue are those
    the mapper makes of the messages the engine gave it, in order and none
    missing. */
module TurnStreams {
  import opened Wrappers
  import opened Turns
  import opened TurnExclusivity
  import opened TurnCancellation
  import opened TurnReasons
  import opened TurnAims
  import opened MapperRuns
  import U = UpdateMapper

  // ------------------------------------------------------- what a task sends

  function NoticeOf(frame: Frame, t: nat): seq<U.Update> {
    if frame.Notice? && frame.from == Some(t) then [frame.update] else []
  }

  // The updates sent in the task's name.
  function NoticesFrom(sink: seq<Frame>, t: nat): seq<U.Update> {
    if sink == [] then [] else NoticesFrom(sink[..|sink| - 1], t) + NoticeOf(sink[|sink| - 1], t)
  }

  // Those it sends itself, what the engine and the progress callbacks publish on
  // its behalf apart.
  function SentBy(steps: seq<Step>, t: nat): seq<U.Update> {
    if steps == [] then []
    else
      SentBy(steps[..|steps| - 1], t)
      + (if steps[|steps| - 1].Extra? then []
         else NewNotices(Run(INITIAL, steps[..|steps| - 1]), Run(INITIAL, steps), t))
  }

  function NewNotices(w: World, v: World, t: nat): seq<U.Update> {
    if |v.sink| > |w.sink| then NoticeOf(v.sink[|w.sink|], t) else []
  }

  // ---------------------------------------------------------- what it should be

  predicate Polls(w: World, step: Step, t: nat) {
    step.Poll? && step.t == t && t < |w.turns| && w.turns[t].phase.Polling?
  }

  // The messages the engine gave the task, in order.
  function Polled(steps: seq<Step>, t: nat): seq<U.SdkMessage> {
    if steps == [] then []
    else
      Polled(steps[..|steps| - 1], t) + PolledNow(Run(INITIAL, steps[..|steps| - 1]), steps[|steps| - 1], t)
  }

  function PolledNow(w: World, step: Step, t: nat): seq<U.SdkMessage> {
    if Polls(w, step, t) then [step.msg] else []
  }

  function ResultsIn(msgs: seq<U.SdkMessage>): nat {
    if msgs == [] then 0 else ResultsIn(msgs[..|msgs| - 1]) + (if msgs[|msgs| - 1].Result? then 1 else 0)
  }

  // A result is shown once it is mapped, as cancelled if the mark or the abort was
  // seen for it; any other message as the mapper shows it after those before it.
  ghost function ShareOf(front: seq<U.SdkMessage>, msg: U.SdkMessage, brief: bool, marks: seq<bool>, aborts: seq<bool>):
    seq<U.Update>
  {
    if !msg.Result? then U.MapMessage(After(U.FRESH, front, brief), msg, brief).0
    else
      var j := ResultsIn(front);
      if j < |marks| && j < |aborts| then
        U.MapResult(msg.result, if marks[j] || aborts[j] then Some(U.Cancelled) else None)
      else []
  }

  ghost function StreamOf(msgs: seq<U.SdkMessage>, brief: bool, marks: seq<bool>, aborts: seq<bool>): seq<U.Update> {
    if msgs == [] then []
    else
      var front, last := msgs[..|msgs| - 1], msgs[|msgs| - 1];
      StreamOf(front, brief, marks, aborts) + ShareOf(front, last, brief, marks, aborts)
  }

  predicate BriefOf(w: World, t: nat)
    requires t < |w.turns|
  {
    w.turns[t].session < |w.sessions| && w.sessions[w.turns[t].session].structuredBrief
  }

  // A turn that ends marked and without a result says so at its end.
  function Farewell(phase: Phase, marks: seq<bool>, end: bool): seq<U.Update> {
    if Over(phase) && marks == [] && end then [U.Idle(U.Cancelled)] else []
  }

  function Opening(phase: Phase): seq<U.Update> {
    if HasRun(phase) && !phase.Woken? then [U.Running] else []
  }

  function Outbox(phase: Phase): seq<U.Update> {
    if phase.Sending? then phase.outbox else []
  }

  // ----------------------------------------------------------- the two compared

  // Sent and about to be sent, against what the messages call for.
  ghost predicate Streams(turn: Turn, brief: bool, sent: seq<U.Update>, polled: seq<U.SdkMessage>,
                          marks: seq<bool>, aborts: seq<bool>, end: bool) {
    && sent + Outbox(turn.phase) ==
       Opening(turn.phase) + StreamOf(polled, brief, marks, aborts) + Farewell(turn.phase, marks, end)
    && turn.mapper == After(U.FRESH, polled, brief)
    && ResultsIn(polled) == |marks|
    && (!HasReset(turn.phase) ==> polled == [])
    && (turn.phase.ResultRead? ==> polled != [] && polled[|polled| - 1] == U.Result(turn.phase.result))
  }

  lemma StreamOneMore(msgs: seq<U.SdkMessage>, msg: U.SdkMessage, brief: bool, marks: seq<bool>, aborts: seq<bool>)
    ensures StreamOf(msgs + [msg], brief, marks, aborts) ==
      StreamOf(msgs, brief, marks, aborts) + ShareOf(msgs, msg, brief, marks, aborts)
    ensures ResultsIn(msgs + [msg]) == ResultsIn(msgs) + (if msg.Result? then 1 else 0)
  {
    assert (msgs + [msg])[..|msgs|] == msgs;
  }

  // Only the looks for the results among the messages matter.
  lemma {:induction false} StreamSame(msgs: seq<U.SdkMessage>, brief: bool, marks: seq<bool>, aborts: seq<bool>,
      marks': seq<bool>, aborts': seq<bool>)
    requires ResultsIn(msgs) <= |marks| && ResultsIn(msgs) <= |aborts| && marks <= marks' && aborts <= aborts'
    ensures StreamOf(msgs, brief, marks', aborts') == StreamOf(msgs, brief, marks, aborts)
  {
    if msgs != [] { StreamSame(msgs[..|msgs| - 1], brief, marks, aborts, marks', aborts'); }
  }

  lemma MapperOneMore(msgs: seq<U.SdkMessage>, msg: U.SdkMessage, brief: bool)
    ensures After(U.FRESH, msgs + [msg], brief) == U.MapMessage(After(U.FRESH, msgs, brief), msg, brief).1
  {
    AfterConcat(U.FRESH, msgs, [msg], brief);
    assert [msg][1..] == [];
  }

  lemma MoreToSend(sent: seq<U.Update>, opening: seq<U.Update>, stream: seq<U.Update>, more: seq<U.Update>)
    requires sent + [] == opening + stream + []
    ensures sent + more == opening + (stream + more) + []
  {
    assert sent + [] == sent && opening + stream + [] == opening + stream;
  }

  // A message that is no result goes into the outbox as the mapper shows it.
  lemma MessageStreams(turn: Turn, brief: bool, sent: seq<U.Update>, polled: seq<U.SdkMessage>, marks: seq<bool>,
      aborts: seq<bool>, msg: U.SdkMessage)
    requires Streams(turn, brief, sent, polled, marks, aborts, false) && turn.phase.Polling? && !msg.Result?
    ensures var (out, next) := U.MapMessage(turn.mapper, msg, brief);
      Streams(turn.(mapper := next, phase := Sending(out)), brief, sent, polled + [msg], marks, aborts, false)
  {
    StreamOneMore(polled, msg, brief, marks, aborts);
    MapperOneMore(polled, msg, brief);
    MoreToSend(sent, Opening(turn.phase), StreamOf(polled, brief, marks, aborts),
               U.MapMessage(turn.mapper, msg, brief).0);
  }

  // A result is read, and shown only when it is mapped.
  lemma ResultStreams(turn: Turn, brief: bool, sent: seq<U.Update>, polled: seq<U.SdkMessage>, marks: seq<bool>,
      aborts: seq<bool>, result: U.TurnResult, marked: bool)
    requires Streams(turn, brief, sent, polled, marks, aborts, false) && turn.phase.Polling? && |marks| == |aborts|
    ensures Streams(turn.(results := turn.results + 1, phase := ResultRead(result, marked)), brief, sent,
                    polled + [U.Result(result)], marks + [marked], aborts, false)
  {
    StreamOneMore(polled, U.Result(result), brief, marks + [marked], aborts);
    StreamSame(polled, brief, marks, aborts, marks + [marked], aborts);
    MapperOneMore(polled, U.Result(result), brief);
  }

  lemma MappedStreams(turn: Turn, brief: bool, sent: seq<U.Update>, polled: seq<U.SdkMessage>, marks: seq<bool>,
      aborts: seq<bool>, aborted: bool)
    requires Streams(turn, brief, sent, polled, marks, aborts, false) && turn.phase.ResultRead?
    requires |marks| == |aborts| + 1 && marks[|aborts|] == turn.phase.cancelled
    ensures var forced := if turn.phase.cancelled || aborted then Some(U.Cancelled) else None;
      var out := U.MapResult(turn.phase.result, forced);
      Streams(turn.(phase := Sending(out)), brief, sent, polled, marks, aborts + [aborted], false)
  {
    var front, last := polled[..|polled| - 1], polled[|polled| - 1];
    var out := U.MapResult(turn.phase.result, if turn.phase.cancelled || aborted then Some(U.Cancelled) else None);
    assert polled == front + [last];
    StreamOneMore(front, last, brief, marks, aborts);
    StreamOneMore(front, last, brief, marks, aborts + [aborted]);
    StreamSame(front, brief, marks, aborts, marks, aborts + [aborted]);
    assert ResultsIn(front) == |aborts|;
    assert StreamOf(front, brief, marks, aborts) + [] == StreamOf(front, brief, marks, aborts);
    MoreToSend(sent, Opening(turn.phase), StreamOf(front, brief, marks, aborts), out);
  }

  // ------------------------------------------------------------ the task's steps

  // The state a task's own step starts from.
  ghost predicate Ready(w: World, t: nat, sent: seq<U.Update>, polled: seq<U.SdkMessage>, marks: seq<bool>,
                        aborts: seq<bool>, end: bool) {
    && t < |w.turns| && Streams(w.turns[t], BriefOf(w, t), sent, polled, marks, aborts, end)
    && Looked(w.turns[t].phase, marks, aborts, end) && w.turns[t].results == |marks|
  }

  lemma PollMoves(w: World, t: nat, msg: U.SdkMessage)
    requires t < |w.turns| && w.turns[t].phase.Polling?
    ensures var turn, next := w.turns[t], TaskStep(w, Poll(t, msg), t).turns[t];
      && (msg.Result? ==>
           next == turn.(results := turn.results + 1, phase := ResultRead(msg.result, Marked(w, t)))
             && MarkNow(w, Poll(t, msg), t) == [Marked(w, t)])
      && (!msg.Result? ==>
           var (out, mapper) := U.MapMessage(turn.mapper, msg, BriefOf(w, t));
           next == turn.(mapper := mapper, phase := Sending(out)) && MarkNow(w, Poll(t, msg), t) == [])
  {
  }

  lemma PollStreams(w: World, t: nat, msg: U.SdkMessage, sent: seq<U.Update>, polled: seq<U.SdkMessage>,
      marks: seq<bool>, aborts: seq<bool>, end: bool)
    requires Ready(w, t, sent, polled, marks, aborts, end) && w.turns[t].phase.Polling?
    ensures Streams(TaskStep(w, Poll(t, msg), t).turns[t], BriefOf(w, t), sent, polled + [msg],
                    marks + MarkNow(w, Poll(t, msg), t), aborts, false)
  {
    PollMoves(w, t, msg);
    if msg.Result? {
      ResultStreams(w.turns[t], BriefOf(w, t), sent, polled, marks, aborts, msg.result, Marked(w, t));
    } else {
      MessageStreams(w.turns[t], BriefOf(w, t), sent, polled, marks, aborts, msg);
      assert marks + [] == marks;
    }
  }

  lemma MapStreams(w: World, t: nat, sent: seq<U.Update>, polled: seq<U.SdkMessage>, marks: seq<bool>,
      aborts: seq<bool>, end: bool)
    requires Ready(w, t, sent, polled, marks, aborts, end) && w.turns[t].phase.ResultRead?
    ensures Streams(TaskStep(w, MapRead(t), t).turns[t], BriefOf(w, t), sent, polled, marks,
                    aborts + [EngineAborted(w, t)], false)
  {
    MappedStreams(w.turns[t], BriefOf(w, t), sent, polled, marks, aborts, EngineAborted(w, t));
  }

  // Asking for a message, and mapping a result.
  lemma LookingStreams(w: World, step: Step, t: nat, sent: seq<U.Update>, polled: seq<U.SdkMessage>,
      marks: seq<bool>, aborts: seq<bool>, end: bool)
    requires Ready(w, t, sent, polled, marks, aborts, end) && (step.Poll? || step.MapRead?) && step.t == t
    ensures Streams(TaskStep(w, step, t).turns[t], BriefOf(w, t), sent, polled + PolledNow(w, step, t),
                    marks + MarkNow(w, step, t), aborts + AbortNow(w, step, t), end)
  {
    assert polled + [] == polled && marks + [] == marks && aborts + [] == aborts;
    if step.Poll? && w.turns[t].phase.Polling? {
      PollStreams(w, t, step.msg, sent, polled, marks, aborts, end);
    } else if step.MapRead? && w.turns[t].phase.ResultRead? {
      MapStreams(w, t, sent, polled, marks, aborts, end);
    } else {
      assert TaskStep(w, step, t).turns[t] == w.turns[t];
    }
  }

  // The phase after a step that looks at nothing new, and what the step sends.
  function PhaseAfter(w: World, step: Step, t: nat): Phase
    requires t < |w.turns|
  {
    var phase := w.turns[t].phase;
    match step
    case Wake(_) => if phase.Signalled? then Woken else if phase.Dropped? then Done(false) else phase
    case Announce(_) => if phase.Woken? then Announced else phase
    case ResetAbort(_) => if phase.Announced? then Polling else phase
    case Emit(_) =>
      if !phase.Sending? then phase else if phase.outbox == [] then Polling else Sending(phase.outbox[1..])
    case EndStream(_) => if phase.Polling? then Ended(Marked(w, t)) else phase
    case SendIdle(_) => if phase.Ended? then Leaving else phase
    case Leave(_) => if phase.Leaving? then Done(true) else phase
    case _ => phase
  }

  function SendsNow(turn: Turn, step: Step): seq<U.Update> {
    if step.Announce? && turn.phase.Woken? then [U.Running]
    else if step.Emit? && turn.phase.Sending? && turn.phase.outbox != [] then [turn.phase.outbox[0]]
    else if step.SendIdle? && turn.phase.Ended? && turn.phase.cancelled && turn.results == 0 then [U.Idle(U.Cancelled)]
    else []
  }

  predicate Looks(step: Step) { step.Poll? || step.MapRead? || step.Extra? }

  lemma StepSends(w: World, step: Step, t: nat)
    requires t < |w.turns| && IsTaskStep(step) && step.t == t && !Looks(step)
    ensures var v := TaskStep(w, step, t);
      && v.turns[t] == w.turns[t].(phase := PhaseAfter(w, step, t))
      && NewNotices(w, v, t) == SendsNow(w.turns[t], step)
  {
  }

  predicate Greets(turn: Turn, step: Step) { step.Announce? && turn.phase.Woken? }

  predicate Parts(turn: Turn, step: Step) { step.SendIdle? && turn.phase.Ended? }

  // Apart from the greeting and the farewell, what is sent leaves the outbox.
  lemma SendsFromOutbox(w: World, step: Step, t: nat, marks: seq<bool>, aborts: seq<bool>, end: bool)
    requires t < |w.turns| && Looked(w.turns[t].phase, marks, aborts, end) && IsTaskStep(step) && step.t == t
    requires !Looks(step) && !Greets(w.turns[t], step) && !Parts(w.turns[t], step)
    ensures var phase, next := w.turns[t].phase, PhaseAfter(w, step, t);
      && Opening(next) == Opening(phase)
      && Farewell(next, marks, end || EndNow(w, step, t)) == Farewell(phase, marks, end)
      && SendsNow(w.turns[t], step) + Outbox(next) == Outbox(phase)
      && (HasReset(phase) ==> HasReset(next)) && (next.ResultRead? ==> next == phase)
  {
    if step.Emit? && w.turns[t].phase.Sending? {
      EmitsFirst(w.turns[t].phase.outbox);
    } else {
      SendsNothing(w, step, t);
    }
  }

  lemma EmitsFirst(outbox: seq<U.Update>)
    ensures outbox != [] ==> [outbox[0]] + outbox[1..] == outbox
    ensures outbox == [] ==> [] + [] == outbox
  {
  }

  lemma SendsNothing(w: World, step: Step, t: nat)
    requires t < |w.turns| && IsTaskStep(step) && !Looks(step) && !(step.Emit? && w.turns[t].phase.Sending?)
    requires !Greets(w.turns[t], step) && !Parts(w.turns[t], step)
    ensures SendsNow(w.turns[t], step) + Outbox(PhaseAfter(w, step, t)) == Outbox(w.turns[t].phase)
  {
    assert SendsNow(w.turns[t], step) == [] && Outbox(PhaseAfter(w, step, t)) == Outbox(w.turns[t].phase);
    assert [] + Outbox(w.turns[t].phase) == Outbox(w.turns[t].phase);
  }

  lemma Shifted(sent: seq<U.Update>, now: seq<U.Update>, rest: seq<U.Update>, all: seq<U.Update>)
    requires sent + (now + rest) == all
    ensures (sent + now) + rest == all
  {
    assert (sent + now) + rest == sent + (now + rest);
  }

  lemma OutboxStreams(w: World, step: Step, t: nat, sent: seq<U.Update>, polled: seq<U.SdkMessage>, marks: seq<bool>,
      aborts: seq<bool>, end: bool)
    requires Ready(w, t, sent, polled, marks, aborts, end) && IsTaskStep(step) && step.t == t
    requires !Looks(step) && !Greets(w.turns[t], step) && !Parts(w.turns[t], step)
    ensures Streams(w.turns[t].(phase := PhaseAfter(w, step, t)), BriefOf(w, t), sent + SendsNow(w.turns[t], step),
                    polled, marks, aborts, end || EndNow(w, step, t))
  {
    SendsFromOutbox(w, step, t, marks, aborts, end);
    Shifted(sent, SendsNow(w.turns[t], step), Outbox(PhaseAfter(w, step, t)),
            Opening(w.turns[t].phase) + StreamOf(polled, BriefOf(w, t), marks, aborts)
            + Farewell(w.turns[t].phase, marks, end));
  }

  lemma GreetingStreams(turn: Turn, brief: bool, sent: seq<U.Update>, marks: seq<bool>, aborts: seq<bool>, end: bool)
    requires Streams(turn, brief, sent, [], marks, aborts, end) && turn.phase.Woken?
    ensures Streams(turn.(phase := Announced), brief, sent + [U.Running], [], marks, aborts, end)
  {
    assert StreamOf([], brief, marks, aborts) == [] && sent == [];
  }

  lemma FarewellStreams(turn: Turn, brief: bool, sent: seq<U.Update>, polled: seq<U.SdkMessage>, marks: seq<bool>,
      aborts: seq<bool>, end: bool)
    requires Streams(turn, brief, sent, polled, marks, aborts, end) && turn.phase.Ended?
    ensures Streams(turn.(phase := Leaving), brief, sent + Farewell(Leaving, marks, end), polled, marks, aborts, end)
  {
    Parting(sent, Opening(turn.phase) + StreamOf(polled, brief, marks, aborts), Farewell(Leaving, marks, end));
  }

  lemma Parting(sent: seq<U.Update>, said: seq<U.Update>, farewell: seq<U.Update>)
    requires sent + [] == said + []
    ensures (sent + farewell) + [] == said + farewell
  {
    assert sent + [] == sent && said + [] == said;
  }

  lemma TellingStreams(w: World, step: Step, t: nat, sent: seq<U.Update>, polled: seq<U.SdkMessage>,
      marks: seq<bool>, aborts: seq<bool>, end: bool)
    requires Ready(w, t, sent, polled, marks, aborts, end) && IsTaskStep(step) && step.t == t && !Looks(step)
    ensures Streams(w.turns[t].(phase := PhaseAfter(w, step, t)), BriefOf(w, t), sent + SendsNow(w.turns[t], step),
                    polled, marks, aborts, end || EndNow(w, step, t))
  {
    if Greets(w.turns[t], step) {
      assert polled == [];
      GreetingStreams(w.turns[t], BriefOf(w, t), sent, marks, aborts, end);
    } else if Parts(w.turns[t], step) {
      FarewellStreams(w.turns[t], BriefOf(w, t), sent, polled, marks, aborts, end);
      assert SendsNow(w.turns[t], step) == Farewell(Leaving, marks, end);
    } else {
      OutboxStreams(w, step, t, sent, polled, marks, aborts, end);
    }
  }

  lemma LooksSend(w: World, step: Step, t: nat)
    requires t < |w.turns| && (step.Poll? || step.MapRead?)
    ensures NewNotices(w, TaskStep(w, step, t), t) == []
  {
    assert TaskStep(w, step, t).sink == w.sink;
  }

  lemma NothingLooked(w: World, step: Step, t: nat)
    requires IsTaskStep(step) && !Looks(step)
    ensures PolledNow(w, step, t) == [] && MarkNow(w, step, t) == [] && AbortNow(w, step, t) == []
  {
  }

  lemma OwnStreams(w: World, step: Step, t: nat, sent: seq<U.Update>, polled: seq<U.SdkMessage>, marks: seq<bool>,
      aborts: seq<bool>, end: bool)
    requires Ready(w, t, sent, polled, marks, aborts, end) && IsTaskStep(step) && step.t == t && !step.Extra?
    ensures var v := TaskStep(w, step, t);
      Streams(v.turns[t], BriefOf(w, t), sent + NewNotices(w, v, t), polled + PolledNow(w, step, t),
              marks + MarkNow(w, step, t), aborts + AbortNow(w, step, t), end || EndNow(w, step, t))
  {
    if Looks(step) {
      LooksSend(w, step, t);
      LookingStreams(w, step, t, sent, polled, marks, aborts, end);
      assert sent + [] == sent;
    } else {
      StepSends(w, step, t);
      NothingLooked(w, step, t);
      TellingStreams(w, step, t, sent, polled, marks, aborts, end);
      assert polled + [] == polled && marks + [] == marks && aborts + [] == aborts;
    }
  }

  // ------------------------------------------------------------------- every run

  // Sessions keep their id and their way of showing briefs.
  ghost predicate SameNames(w: World, v: World) {
    |w.sessions| <= |v.sessions|
    && forall s :: 0 <= s < |w.sessions| ==>
         v.sessions[s].sid == w.sessions[s].sid && v.sessions[s].structuredBrief == w.sessions[s].structuredBrief
  }

  lemma HandleNames(w: World, action: Action)
    requires w.reader.Busy? && Registry(w)
    ensures SameNames(w, HandleStep(w, action))
  {
    if HandleStep(w, action) != w { HandleShape(w, action); }
  }

  lemma ProceedNames(w: World)
    requires w.reader.Busy?
    ensures SameNames(w, ProceedStep(w))
  {
    if w.reader.work.ConvertingPrompt? {
      ConvertShape(w);
    } else if Closing(w.reader.work) {
      CloseShape(w);
    } else {
      ProceedShape(w);
    }
  }

  lemma ResolveNames(w: World)
    requires w.reader.Busy?
    ensures SameNames(w, ResolveStep(w))
  {
    var r := w.reader;
    if WithdrawsNext(w) {
      WithdrawShape(if r.batch then w.(pending := w.pending - {r.slips[|r.results|].id}) else w,
                    r.answers[|r.results|].turn);
    }
  }

  lemma BusyNames(w: World, step: Step)
    requires Registry(w) && w.reader.Busy?
    ensures SameNames(w, ReaderStep(w, step))
  {
    match step
    case Handle(action) => HandleNames(w, action);
    case Proceed => ProceedNames(w);
    case TimeOut => if w.reader.work.ClosingWait? { TimeOutShape(w); }
    case Resolve => ResolveNames(w);
    case SendReply => assert SameSessions(w, ReplyStep(w));
    case _ =>
  }

  lemma StepNames(w: World, step: Step)
    requires Registry(w)
    ensures SameNames(w, Next(w, step))
  {
    if IsTaskStep(step) {
      if step.t < |w.turns| { TaskShape(w, step, step.t); }
    } else {
      match w.reader
      case Ready => if step.Read? { ReadShape(w, step.line); }
      case Starting(_, _) => if step.Start? { StartShape(w); }
      case Busy(_, _, _, _, _, _, _) => BusyNames(w, step);
    }
  }

  ghost predicate Streaming(steps: seq<Step>, w: World, t: nat) {
    if t < |w.turns| then
      Streams(w.turns[t], BriefOf(w, t), SentBy(steps, t), Polled(steps, t), MarksSeen(steps, t), AbortsSeen(steps, t),
              MarkSeenAtEnd(steps, t))
    else SentBy(steps, t) == [] && Polled(steps, t) == []
  }

  // What one step more adds to the history of task `t`.
  lemma HistoryOneMore(steps: seq<Step>, step: Step, t: nat)
    ensures var w, more := Run(INITIAL, steps), steps + [step]; var v := Next(w, step);
      && Run(INITIAL, more) == v
      && SentBy(more, t) == SentBy(steps, t) + (if step.Extra? then [] else NewNotices(w, v, t))
      && Polled(more, t) == Polled(steps, t) + PolledNow(w, step, t)
      && MarksSeen(more, t) == MarksSeen(steps, t) + MarkNow(w, step, t)
      && AbortsSeen(more, t) == AbortsSeen(steps, t) + AbortNow(w, step, t)
      && MarkSeenAtEnd(more, t) == (MarkSeenAtEnd(steps, t) || EndNow(w, step, t))
  {
    assert (steps + [step])[..|steps|] == steps;
  }

  lemma OwnStepStreaming(steps: seq<Step>, w: World, step: Step, t: nat)
    requires w == Run(INITIAL, steps) && Basic(w) && Streaming(steps, w, t) && Explained(steps, w, t)
    requires t < |w.turns| && IsTaskStep(step) && step.t == t && !step.Extra?
    ensures Streaming(steps + [step], Next(w, step), t)
  {
    HistoryOneMore(steps, step, t);
    TaskShape(w, step, t);
    StepNames(w, step);
    OwnStreams(w, step, t, SentBy(steps, t), Polled(steps, t), MarksSeen(steps, t), AbortsSeen(steps, t),
               MarkSeenAtEnd(steps, t));
  }

  predicate Waits(turn: Turn, after: Turn) {
    after == turn || (after == turn.(phase := after.phase) && !HasRun(turn.phase) && !HasRun(after.phase))
  }

  // A step that is none of the task's own: the turn stays, or has not run yet.
  lemma AsideStreaming(steps: seq<Step>, w: World, step: Step, v: World, t: nat)
    requires w == Run(INITIAL, steps) && v == Next(w, step) && Basic(w) && Streaming(steps, w, t)
    requires Explained(steps, w, t) && (IsTaskStep(step) && step.t == t ==> step.Extra? || t >= |w.turns|)
    requires step.Extra? || NewNotices(w, v, t) == []
    requires |w.turns| <= |v.turns| && SameNames(w, v)
    requires t < |w.turns| ==> Waits(w.turns[t], v.turns[t])
    requires |w.turns| <= t < |v.turns| ==> !HasRun(v.turns[t].phase) && v.turns[t].mapper == U.FRESH
    ensures Streaming(steps + [step], v, t)
  {
    HistoryOneMore(steps, step, t);
    assert SentBy(steps, t) + [] == SentBy(steps, t) && Polled(steps, t) + [] == Polled(steps, t);
    assert MarksSeen(steps, t) + [] == MarksSeen(steps, t) && AbortsSeen(steps, t) + [] == AbortsSeen(steps, t);
  }

  lemma ReaderNewTurns(w: World, step: Step)
    requires Registry(w) && !IsTaskStep(step)
    ensures forall t :: |w.turns| <= t < |ReaderStep(w, step).turns| ==> ReaderStep(w, step).turns[t].mapper == U.FRESH
  {
    match w.reader
    case Ready => if step.Read? { ReadShape(w, step.line); }
    case Starting(_, _) => if step.Start? { StartShape(w); }
    case Busy(_, _, _, _, _, _, _) => BusyNewTurns(w, step);
  }

  lemma BusyNewTurns(w: World, step: Step)
    requires Registry(w) && w.reader.Busy?
    ensures var v := ReaderStep(w, step); forall t :: |w.turns| <= t < |v.turns| ==> v.turns[t].mapper == U.FRESH
  {
    match step
    case Handle(action) => if HandleStep(w, action) != w { HandleShape(w, action); }
    case Proceed => ProceedTurns(w);
    case TimeOut => if w.reader.work.ClosingWait? { TimeOutShape(w); }
    case Resolve => ResolveTurns(w);
    case SendReply => assert SameSessions(w, ReplyStep(w));
    case _ =>
  }

  lemma ProceedTurns(w: World)
    requires w.reader.Busy?
    ensures |ProceedStep(w).turns| == |w.turns|
  {
    if w.reader.work.ConvertingPrompt? {
      ConvertShape(w);
    } else if Closing(w.reader.work) {
      CloseShape(w);
    } else {
      ProceedShape(w);
    }
  }

  lemma ResolveTurns(w: World)
    requires w.reader.Busy?
    ensures |ResolveStep(w).turns| == |w.turns|
  {
    var r := w.reader;
    if WithdrawsNext(w) {
      WithdrawShape(if r.batch then w.(pending := w.pending - {r.slips[|r.results|].id}) else w,
                    r.answers[|r.results|].turn);
    }
  }

  lemma ReaderStreaming(steps: seq<Step>, w: World, step: Step, t: nat)
    requires w == Run(INITIAL, steps) && Basic(w) && Streaming(steps, w, t) && Explained(steps, w, t)
    requires !IsTaskStep(step)
    ensures Streaming(steps + [step], Next(w, step), t)
  {
    ReaderAside(w, step);
    ReaderNewTurns(w, step);
    StepNames(w, step);
    AsideStreaming(steps, w, step, Next(w, step), t);
  }

  lemma OtherWaits(w: World, step: Step, t: nat)
    requires IsTaskStep(step) && (step.t != t || step.Extra? || t >= |w.turns|)
    ensures var v := Next(w, step);
      && |v.turns| == |w.turns| && (t < |w.turns| ==> v.turns[t] == w.turns[t])
      && (step.Extra? || NewNotices(w, v, t) == [])
  {
    if step.t < |w.turns| {
      TaskShape(w, step, step.t);
      if step.Extra? { assert Next(w, step).turns == w.turns; }
    }
  }

  lemma OtherStreaming(steps: seq<Step>, w: World, step: Step, t: nat)
    requires w == Run(INITIAL, steps) && Basic(w) && Streaming(steps, w, t) && Explained(steps, w, t)
    requires IsTaskStep(step) && (step.t != t || step.Extra? || t >= |w.turns|)
    ensures Streaming(steps + [step], Next(w, step), t)
  {
    StepNames(w, step);
    OtherWaits(w, step, t);
    AsideStreaming(steps, w, step, Next(w, step), t);
  }

  lemma {:induction false} RunStreaming(steps: seq<Step>, t: nat)
    ensures Streaming(steps, Run(INITIAL, steps), t)
    decreases |steps|
  {
    if steps == [] {
      NothingStreams(t);
    } else {
      RunStreaming(steps[..|steps| - 1], t);
      LastOfRun(steps);
      LastStreaming(steps[..|steps| - 1], Run(INITIAL, steps[..|steps| - 1]), steps[|steps| - 1], steps,
                    Run(INITIAL, steps), t);
    }
  }

  lemma NothingStreams(t: nat)
    ensures Run(INITIAL, []) == INITIAL && Streaming([], INITIAL, t)
  {
  }

  lemma LastOfRun(steps: seq<Step>)
    requires steps != []
    ensures var front, last := steps[..|steps| - 1], steps[|steps| - 1];
      steps == front + [last] && Run(INITIAL, steps) == Next(Run(INITIAL, front), last)
  {
  }

  lemma LastStreaming(front: seq<Step>, w: World, last: Step, steps: seq<Step>, v: World, t: nat)
    requires steps == front + [last] && w == Run(INITIAL, front) && v == Next(w, last)
    requires Streaming(front, w, t)
    ensures Streaming(steps, v, t)
  {
    RunKeepsBasic(INITIAL, front);
    RunExplained(front, t);
    StepStreaming(front, w, last, t);
  }

  lemma StepStreaming(steps: seq<Step>, w: World, step: Step, t: nat)
    requires w == Run(INITIAL, steps) && Basic(w) && Streaming(steps, w, t) && Explained(steps, w, t)
    ensures Streaming(steps + [step], Next(w, step), t)
  {
    if !IsTaskStep(step) {
      ReaderStreaming(steps, w, step, t);
    } else if step.t == t && t < |w.turns| && !step.Extra? {
      OwnStepStreaming(steps, w, step, t);
    } else {
      OtherStreaming(steps, w, step, t);
    }
  }

  // ------------------------------------------------------------------- theorems

  // What a task sends itself is, at every moment of a run, the front of: running,
  // what its messages call for, each in its place, and at a marked end without
  // result one idle. Once the task is done it has sent all of that.
  lemma {:induction false} StreamsExactly(steps: seq<Step>, w: World, t: nat)
    requires w == Run(INITIAL, steps) && t < |w.turns|
    ensures var phase, marks, end := w.turns[t].phase, MarksSeen(steps, t), MarkSeenAtEnd(steps, t);
      var stream := StreamOf(Polled(steps, t), BriefOf(w, t), marks, AbortsSeen(steps, t));
      && (phase == Done(true) ==>
           SentBy(steps, t) == [U.Running] + stream + (if marks == [] && end then [U.Idle(U.Cancelled)] else []))
      && (HasRun(phase) && !Over(phase) ==> SentBy(steps, t) <= [U.Running] + stream)
      && (!HasRun(phase) ==> SentBy(steps, t) == [])
  {
    RunStreaming(steps, t);
    RunExplained(steps, t);
    var stream := StreamOf(Polled(steps, t), BriefOf(w, t), MarksSeen(steps, t), AbortsSeen(steps, t));
    SentSoFar(SentBy(steps, t), Outbox(w.turns[t].phase), Opening(w.turns[t].phase), stream,
              Farewell(w.turns[t].phase, MarksSeen(steps, t), MarkSeenAtEnd(steps, t)));
    if !HasRun(w.turns[t].phase) { assert Polled(steps, t) == []; }
  }

  lemma SentSoFar(sent: seq<U.Update>, outbox: seq<U.Update>, opening: seq<U.Update>, stream: seq<U.Update>,
      farewell: seq<U.Update>)
    requires sent + outbox == opening + stream + farewell
    ensures outbox == [] ==> sent == opening + stream + farewell
    ensures farewell == [] ==> sent <= opening + stream
  {
    assert outbox == [] ==> sent + outbox == sent;
    assert farewell == [] ==> opening + stream + farewell == opening + stream;
  }

  ghost predicate NoExtras(steps: seq<Step>, t: nat) {
    forall i :: 0 <= i < |steps| ==> !(steps[i].Extra? && steps[i].t == t)
  }

  // With nothing published on its behalf, that is all there is in its name.
  lemma {:induction false} SentIsAll(steps: seq<Step>, t: nat)
    requires NoExtras(steps, t)
    ensures NoticesFrom(Run(INITIAL, steps).sink, t) == SentBy(steps, t)
    decreases |steps|
  {
    if steps != [] {
      var front, last := steps[..|steps| - 1], steps[|steps| - 1];
      var w, v := Run(INITIAL, front), Run(INITIAL, steps);
      SentIsAll(front, t);
      RunKeepsBasic(INITIAL, front);
      StepSink(w, last);
      if v.sink != w.sink { assert v.sink[..|w.sink|] == w.sink; }
      if last.Extra? && last.t < |w.turns| { TaskShape(w, last, last.t); }
    }
  }

  lemma StepSink(w: World, step: Step)
    requires Registry(w)
    ensures var v := Next(w, step);
      v.sink == w.sink || (|v.sink| == |w.sink| + 1 && v.sink == w.sink + [v.sink[|w.sink|]])
  {
    if !IsTaskStep(step) {
      ReaderAside(w, step);
    } else if step.t < |w.turns| {
      TaskShape(w, step, step.t);
    }
  }

  // ---------------------------------------------------------------- reassembly

  lemma {:induction false} OutputsOneMore(s: U.State, msgs: seq<U.SdkMessage>, msg: U.SdkMessage, brief: bool)
    ensures Outputs(s, msgs + [msg], brief) ==
      Outputs(s, msgs, brief) + [U.MapMessage(After(s, msgs, brief), msg, brief).0]
    decreases |msgs|
  {
    if msgs == [] {
      assert ([] + [msg])[1..] == [];
    } else {
      assert (msgs + [msg])[1..] == msgs[1..] + [msg];
      OutputsOneMore(U.MapMessage(s, msgs[0], brief).1, msgs[1..], msg, brief);
    }
  }

  lemma {:induction false} FlattenOneMore(outs: seq<seq<U.Update>>, out: seq<U.Update>)
    ensures Flatten(outs + [out]) == Flatten(outs) + out
  {
    if outs == [] {
      assert ([] + [out])[1..] == [] && [out][0] == out && Flatten([]) == [];
    } else {
      assert (outs + [out])[1..] == outs[1..] + [out];
      FlattenOneMore(outs[1..], out);
    }
  }

  // Results carry no text, whatever their reason.
  lemma ShareGroups(front: seq<U.SdkMessage>, msg: U.SdkMessage, brief: bool, marks: seq<bool>, aborts: seq<bool>,
      id: U.MessageId)
    ensures Grouped(ShareOf(front, msg, brief, marks, aborts), id) ==
      Grouped(U.MapMessage(After(U.FRESH, front, brief), msg, brief).0, id)
  {
    if msg.Result? {
      NoChunksNoText(ShareOf(front, msg, brief, marks, aborts), id);
      NoChunksNoText(U.MapMessage(After(U.FRESH, front, brief), msg, brief).0, id);
    }
  }

  lemma {:induction false} StreamGroups(msgs: seq<U.SdkMessage>, brief: bool, marks: seq<bool>, aborts: seq<bool>,
      id: U.MessageId)
    ensures Grouped(StreamOf(msgs, brief, marks, aborts), id) == Grouped(Flatten(Outputs(U.FRESH, msgs, brief)), id)
  {
    if msgs != [] {
      var front, last := msgs[..|msgs| - 1], msgs[|msgs| - 1];
      assert msgs == front + [last];
      StreamGroups(front, brief, marks, aborts, id);
      ShareGroups(front, last, brief, marks, aborts, id);
      OutputsOneMore(U.FRESH, front, last, brief);
      FlattenOneMore(Outputs(U.FRESH, front, brief), U.MapMessage(After(U.FRESH, front, brief), last, brief).0);
      GroupedConcat(StreamOf(front, brief, marks, aborts), ShareOf(front, last, brief, marks, aborts), id);
      GroupedConcat(Flatten(Outputs(U.FRESH, front, brief)),
                    U.MapMessage(After(U.FRESH, front, brief), last, brief).0, id);
    }
  }

  // From engine to client: the chunks a finished task has put in the output queue
  // under a block's message id concatenate to exactly the text the engine streamed
  // to the turn for that kind and block index, in order; an index without an id
  // had no text.
  lemma {:induction false} TurnReassembles(steps: seq<Step>, w: World, t: nat, kind: Kind, index: nat)
    requires w == Run(INITIAL, steps) && HasFinished(w, t) && NoExtras(steps, t)
    ensures var polled := Polled(steps, t); var ids := BlockIds(After(U.FRESH, polled, BriefOf(w, t)), kind);
      && (index in ids ==> Grouped(NoticesFrom(w.sink, t), ids[index]) == BlockText(polled, kind, index))
      && (index !in ids ==> BlockText(polled, kind, index) == "")
  {
    var polled, brief := Polled(steps, t), BriefOf(w, t);
    var marks, aborts := MarksSeen(steps, t), AbortsSeen(steps, t);
    SentIsAll(steps, t);
    StreamsExactly(steps, w, t);
    StreamReassembly(polled, brief, kind, index);
    if index in BlockIds(After(U.FRESH, polled, brief), kind) {
      var id := BlockIds(After(U.FRESH, polled, brief), kind)[index];
      StreamGroups(polled, brief, marks, aborts, id);
      WholeGroups(StreamOf(polled, brief, marks, aborts), marks == [] && MarkSeenAtEnd(steps, t), id);
    }
  }

  lemma WholeGroups(stream: seq<U.Update>, farewell: bool, id: U.MessageId)
    ensures Grouped([U.Running] + stream + (if farewell then [U.Idle(U.Cancelled)] else []), id) == Grouped(stream, id)
  {
    var last := if farewell then [U.Idle(U.Cancelled)] else [];
    GroupedConcat([U.Running] + stream, last, id);
    GroupedConcat([U.Running], stream, id);
    NoChunksNoText([U.Running], id);
    NoChunksNoText(last, id);
  }

  // -------------------------------------------------------------------- addresses

  // Every update in a task's name goes to the session the turn was claimed for.
  ghost predicate Addressed(w: World) {
    forall i, t :: 0 <= i < |w.sink| && w.sink[i].Notice? && w.sink[i].from == Some(t) ==>
      t < |w.turns| && w.turns[t].session < |w.sessions| && w.sink[i].sid == w.sessions[w.turns[t].session].sid
  }

  lemma {:induction false} UpdatesAddressed(steps: seq<Step>)
    ensures Addressed(Run(INITIAL, steps))
    decreases |steps|
  {
    if steps != [] {
      var front := steps[..|steps| - 1];
      UpdatesAddressed(front);
      RunKeepsBasic(INITIAL, front);
      StepAddressed(Run(INITIAL, front), steps[|steps| - 1]);
    }
  }

  lemma StepAddressed(w: World, step: Step)
    requires Basic(w) && Addressed(w)
    ensures Addressed(Next(w, step))
  {
    StepNames(w, step);
    if !IsTaskStep(step) {
      ReaderAddressed(w, step);
    } else if step.t < |w.turns| {
      TaskAddressed(w, step, step.t);
    }
  }

  lemma ReaderAddressed(w: World, step: Step)
    requires Basic(w) && Addressed(w) && !IsTaskStep(step) && SameNames(w, ReaderStep(w, step))
    ensures Addressed(ReaderStep(w, step))
  {
    ReaderAside(w, step);
  }

  lemma TaskAddressed(w: World, step: Step, t: nat)
    requires Basic(w) && Addressed(w) && t < |w.turns| && SameNames(w, TaskStep(w, step, t))
    ensures Addressed(TaskStep(w, step, t))
  {
    TaskShape(w, step, t);
    TaskAddress(w, step, t);
  }

  lemma TaskAddress(w: World, step: Step, t: nat)
    requires t < |w.turns|
    ensures var v := TaskStep(w, step, t);
      |v.sink| > |w.sink| ==> v.sink[|w.sink|].Notice? ==> v.sink[|w.sink|].sid == SidOf(w, w.turns[t].session)
  {
  }
}
