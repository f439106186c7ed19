/** Ack before stream: whatever the interleaving, a prompt's task publishes only
    after the prompt's acceptance is in the output queue, and a prompt cancelled
    before its start publishes nothing, ever. */
module TurnAck {
  import opened Wrappers
  import opened Jsonrpc
  import opened Turns

  predicate Accepts(frame: Frame, t: nat) { frame.Answers? && Accepted(t) in frame.answers }

  ghost predicate Acked(sink: seq<Frame>, t: nat) {
    exists i :: 0 <= i < |sink| && Accepts(sink[i], t)
  }

  predicate IsFrom(frame: Frame, t: nat) { frame.Notice? && frame.from == Some(t) }

  predicate Begun(phase: Phase) { phase.Signalled? || HasRun(phase) }

  predicate Gone(phase: Phase) { phase.Dropped? || phase == Done(false) }

  // ------------------------------------------------------------------ invariant

  ghost predicate BegunAcked(w: World) {
    && (forall t :: 0 <= t < |w.turns| && Begun(w.turns[t].phase) ==> Acked(w.sink, t))
    && (w.reader.Starting? ==> forall t :: t in w.reader.starts ==> Acked(w.sink, t))
  }

  // Only a task that has run publishes.
  predicate Rightful(w: World, frame: Frame) {
    frame.Notice? && frame.from.Some? ==>
      frame.from.value < |w.turns| && HasRun(w.turns[frame.from.value].phase)
  }

  ghost predicate NoticesAcked(w: World) {
    forall j :: 0 <= j < |w.sink| && w.sink[j].Notice? && w.sink[j].from.Some? ==>
      Rightful(w, w.sink[j]) && Acked(w.sink[..j], w.sink[j].from.value)
  }

  ghost predicate AckInv(w: World) { BegunAcked(w) && NoticesAcked(w) }

  lemma AckedStays(sink: seq<Frame>, longer: seq<Frame>, t: nat)
    requires Acked(sink, t) && sink <= longer
    ensures Acked(longer, t)
  {
    var i :| 0 <= i < |sink| && Accepts(sink[i], t);
    assert longer[i] == sink[i];
  }

  // What a step may do: keep what has run, and publish for tasks that have run.
  ghost predicate Orderly(w: World, v: World) {
    && |w.turns| <= |v.turns|
    && (v.sink == w.sink
        || (v.sink != [] && v.sink == w.sink + [v.sink[|v.sink| - 1]] && Rightful(w, v.sink[|v.sink| - 1])))
    && (forall t :: 0 <= t < |w.turns| && HasRun(w.turns[t].phase) ==> HasRun(v.turns[t].phase))
    && (forall t :: 0 <= t < |v.turns| && Begun(v.turns[t].phase) ==>
         (t < |w.turns| && Begun(w.turns[t].phase)) || Acked(v.sink, t))
    && (v.reader.Starting? ==> forall t :: t in v.reader.starts ==>
         (w.reader.Starting? && t in w.reader.starts) || Acked(v.sink, t))
  }

  lemma OrderlyKeepsAck(w: World, v: World)
    requires AckInv(w) && Orderly(w, v)
    ensures AckInv(v)
  {
    forall t | Acked(w.sink, t) ensures Acked(v.sink, t) { AckedStays(w.sink, v.sink, t); }
    forall j | 0 <= j < |v.sink| && v.sink[j].Notice? && v.sink[j].from.Some?
      ensures Rightful(v, v.sink[j]) && Acked(v.sink[..j], v.sink[j].from.value)
    {
      if j < |w.sink| {
        assert v.sink[..j] == w.sink[..j] && v.sink[j] == w.sink[j];
      } else {
        assert Begun(w.turns[v.sink[j].from.value].phase);
        assert v.sink[..j] == w.sink;
      }
    }
  }

  lemma TaskKeepsAck(w: World, step: Step, t: nat)
    requires AckInv(w) && t < |w.turns|
    ensures AckInv(TaskStep(w, step, t))
  {
    TaskShape(w, step, t);
    TaskPhases(w, step, t);
    assert Begun(w.turns[t].phase) ==> Acked(w.sink, t);
    OrderlyKeepsAck(w, TaskStep(w, step, t));
  }

  lemma ReadOrderly(w: World, line: Line)
    requires w.reader.Ready?
    ensures Orderly(w, ReadStep(w, line))
  {
  }

  lemma HandleOrderly(w: World, action: Action)
    requires w.reader.Busy?
    ensures Orderly(w, HandleStep(w, action))
  {
  }

  lemma ConvertOrderly(w: World)
    requires w.reader.Busy? && w.reader.work.ConvertingPrompt?
    ensures Orderly(w, Convert(w))
  {
  }

  // The steps of the reader's work that touch no turn: one notice at most.
  ghost predicate ReaderTells(w: World, v: World) {
    && v.turns == w.turns
    && (v.sink == w.sink
        || (|v.sink| == |w.sink| + 1 && w.sink <= v.sink && v.sink[|w.sink|].Notice? && v.sink[|w.sink|].from == None))
  }

  // The reader went on to other work, or gave a plain answer.
  ghost predicate PlainProgress(w: World, v: World) {
    && w.reader.Busy? && v.reader.Busy? && v.turns == w.turns && v.reader.results == w.reader.results
    && !v.reader.work.ConvertingPrompt?
    && (v.reader.answers == w.reader.answers
        || (v.reader.answers != [] && v.reader.answers[|v.reader.answers| - 1].Plain?
            && v.reader.answers == w.reader.answers + [v.reader.answers[|v.reader.answers| - 1]]))
  }

  lemma PublishTells(w: World)
    requires w.reader.Busy? && w.reader.work.Publishing?
    ensures ReaderTells(w, Publish(w)) && PlainProgress(w, Publish(w))
  {
  }

  lemma CloseTells(w: World)
    requires w.reader.Busy? && Closing(w.reader.work)
    ensures ReaderTells(w, CloseOn(w)) && PlainProgress(w, CloseOn(w))
  {
  }

  lemma ProceedTells(w: World)
    requires w.reader.Busy? && !w.reader.work.ConvertingPrompt?
    ensures ReaderTells(w, ProceedStep(w)) && PlainProgress(w, ProceedStep(w))
  {
    match w.reader.work
    case Publishing(_, _, _) => PublishTells(w);
    case AbortingTurn(_) =>
    case NoWork =>
    case _ => CloseTells(w);
  }

  lemma ProceedOrderly(w: World)
    requires w.reader.Busy?
    ensures Orderly(w, ProceedStep(w))
  {
    if w.reader.work.ConvertingPrompt? {
      ConvertOrderly(w);
    } else {
      ProceedTells(w);
    }
  }

  lemma TimeOutOrderly(w: World)
    requires w.reader.Busy?
    ensures Orderly(w, TimeOutStep(w))
  {
  }

  lemma ResolveOrderly(w: World)
    requires w.reader.Busy?
    ensures Orderly(w, ResolveStep(w))
  {
  }

  lemma {:induction false} StartsAreAccepted(answers: seq<Answer>, t: nat)
    ensures t in StartsOf(answers) <==> Accepted(t) in answers
  {
    if answers != [] {
      var front := answers[..|answers| - 1];
      StartsAreAccepted(front, t);
      assert answers == front + [answers[|answers| - 1]];
    }
  }

  lemma ReplyOrderly(w: World)
    requires w.reader.Busy?
    ensures Orderly(w, ReplyStep(w))
  {
    var v := ReplyStep(w);
    if v.reader.Starting? {
      forall t | t in v.reader.starts ensures Acked(v.sink, t) {
        StartsAreAccepted(w.reader.results, t);
        assert Accepts(v.sink[|w.sink|], t);
      }
    }
  }

  lemma StartKeepsAck(w: World)
    requires AckInv(w) && w.reader.Starting?
    ensures AckInv(StartStep(w))
  {
    OrderlyKeepsAck(w, StartStep(w));
  }

  lemma StepKeepsAck(w: World, step: Step)
    requires AckInv(w)
    ensures AckInv(Next(w, step))
  {
    if IsTaskStep(step) {
      if step.t < |w.turns| {
        TaskKeepsAck(w, step, step.t);
      }
    } else if w.reader.Starting? {
      if step.Start? { StartKeepsAck(w); }
    } else if w.reader.Ready? {
      if step.Read? {
        ReadOrderly(w, step.line);
        OrderlyKeepsAck(w, Next(w, step));
      }
    } else {
      match step {
        case Handle(action) => HandleOrderly(w, action);
        case Proceed => ProceedOrderly(w);
        case TimeOut => TimeOutOrderly(w);
        case Resolve => ResolveOrderly(w);
        case SendReply => ReplyOrderly(w);
        case _ =>
      }
      if step.Handle? || step.Proceed? || step.TimeOut? || step.Resolve? || step.SendReply? {
        OrderlyKeepsAck(w, Next(w, step));
      }
    }
  }

  lemma {:induction false} RunKeepsAck(steps: seq<Step>)
    ensures AckInv(Run(INITIAL, steps))
    decreases |steps|
  {
    if steps != [] {
      RunKeepsAck(steps[..|steps| - 1]);
      StepKeepsAck(Run(INITIAL, steps[..|steps| - 1]), steps[|steps| - 1]);
    }
  }

  // Every update a prompt's task sends is preceded by the frame that carries the
  // prompt's acceptance, and only a task released by that frame sends any.
  lemma {:induction false} AckBeforeStream(steps: seq<Step>, j: nat, t: nat)
    requires j < |Run(INITIAL, steps).sink| && IsFrom(Run(INITIAL, steps).sink[j], t)
    ensures var w := Run(INITIAL, steps);
      && t < |w.turns| && HasRun(w.turns[t].phase)
      && exists i :: 0 <= i < j && Accepts(w.sink[i], t)
  {
    RunKeepsAck(steps);
    var w := Run(INITIAL, steps);
    var i :| 0 <= i < j && Accepts(w.sink[..j][i], t);
    assert Accepts(w.sink[i], t);
  }

  // ---------------------------------------------------- cancelled before start

  // What the reader holds of the prompts of the frame it is busy with: accepted
  // ones are paused, withdrawn ones gone, and no two are the same turn.
  ghost predicate HeldPaused(w: World) {
    w.reader.Busy? ==>
      var r := w.reader;
      && |r.results| <= |r.answers|
      && (forall k :: 0 <= k < |r.answers| ==> !r.answers[k].Withdrawn?)
      && (forall k :: 0 <= k < |r.results| ==> Resolves(r.answers[k], r.results[k]))
      && (forall k :: 0 <= k < |r.answers| && r.answers[k].Accepted? ==>
           && r.answers[k].turn < |w.turns|
           && (if k < |r.results| && r.results[k].Withdrawn? then Gone(w.turns[r.answers[k].turn].phase)
               else w.turns[r.answers[k].turn].phase.Paused?))
      && (forall j, k :: 0 <= j < k < |r.answers| && r.answers[j].Accepted? ==> r.answers[j] != r.answers[k])
      && (r.work.ConvertingPrompt? ==> r.work.turn < |w.turns| && w.turns[r.work.turn].phase.Converting?)
  }

  predicate Resolves(answer: Answer, result: Answer) {
    result == answer || (answer.Accepted? && result == Withdrawn(answer.turn))
  }

  ghost predicate FrameSettled(w: World, frame: Frame) {
    frame.Answers? ==> forall t: nat :: Withdrawn(t) in frame.answers ==> t < |w.turns| && Gone(w.turns[t].phase)
  }

  ghost predicate WithdrawnGone(w: World) {
    HeldPaused(w) && forall i :: 0 <= i < |w.sink| ==> FrameSettled(w, w.sink[i])
  }

  ghost predicate GoneStays(w: World, v: World) {
    && |w.turns| <= |v.turns|
    && (forall t :: 0 <= t < |w.turns| && Gone(w.turns[t].phase) ==> Gone(v.turns[t].phase))
  }

  // At most one frame more, which speaks of no withdrawn prompt that is not gone.
  lemma FramesStaySettled(w: World, v: World)
    requires GoneStays(w, v) && forall i :: 0 <= i < |w.sink| ==> FrameSettled(w, w.sink[i])
    requires v.sink == w.sink
      || (|v.sink| == |w.sink| + 1 && w.sink <= v.sink && FrameSettled(v, v.sink[|w.sink|]))
    ensures forall i :: 0 <= i < |v.sink| ==> FrameSettled(v, v.sink[i])
  {
    forall i | 0 <= i < |v.sink| ensures FrameSettled(v, v.sink[i]) {
      if i < |w.sink| { assert v.sink[i] == w.sink[i] && FrameSettled(w, w.sink[i]); }
    }
  }

  ghost predicate Steady(w: World, v: World) {
    && GoneStays(w, v)
    && (forall t :: 0 <= t < |w.turns| && w.turns[t].phase.Paused? ==> v.turns[t].phase.Paused?)
    && (forall t :: 0 <= t < |w.turns| && w.turns[t].phase.Converting? ==> v.turns[t].phase.Converting?)
  }

  lemma TaskStepSteady(w: World, step: Step, t: nat)
    requires t < |w.turns|
    ensures Steady(w, TaskStep(w, step, t))
  {
    TaskShape(w, step, t);
    TaskPhases(w, step, t);
  }

  lemma PlainProgressHolds(w: World, v: World)
    requires HeldPaused(w) && PlainProgress(w, v)
    ensures HeldPaused(v)
  {
  }

  lemma HandleProgress(w: World, action: Action)
    requires w.reader.Busy?
    ensures var v := HandleStep(w, action);
      && v.sink == w.sink
      && (v == w || PlainProgress(w, v) || Claiming(w, v))
  {
    if HandleStep(w, action) != w && !action.Prompt? {
      assert PlainProgress(w, HandleStep(w, action));
    }
  }

  // The slot was claimed for a new turn.
  ghost predicate Claiming(w: World, v: World) {
    && w.reader.Busy? && v.reader.Busy? && v.reader.results == w.reader.results && v.reader.answers == w.reader.answers
    && v.reader.work.ConvertingPrompt? && v.reader.work.turn == |w.turns|
    && |v.turns| == |w.turns| + 1 && w.turns <= v.turns && v.turns[|w.turns|].phase.Converting?
  }

  lemma HandleSteady(w: World, action: Action)
    requires HeldPaused(w) && w.reader.Busy?
    ensures var v := HandleStep(w, action); GoneStays(w, v) && HeldPaused(v) && v.sink == w.sink
  {
    var v := HandleStep(w, action);
    HandleProgress(w, action);
    if v != w && PlainProgress(w, v) { PlainProgressHolds(w, v); }
  }

  lemma ConvertSteady(w: World)
    requires HeldPaused(w) && w.reader.Busy? && w.reader.work.ConvertingPrompt?
    ensures var v := ProceedStep(w); GoneStays(w, v) && HeldPaused(v) && v.sink == w.sink
  {
  }

  lemma ProceedSteady(w: World)
    requires HeldPaused(w) && w.reader.Busy?
    ensures var v := ProceedStep(w);
      && GoneStays(w, v) && HeldPaused(v)
      && (v.sink == w.sink || (|v.sink| == |w.sink| + 1 && w.sink <= v.sink && v.sink[|w.sink|].Notice?))
  {
    if w.reader.work.ConvertingPrompt? {
      ConvertSteady(w);
    } else {
      ProceedTells(w);
      PlainProgressHolds(w, ProceedStep(w));
    }
  }

  lemma WithdrawSteady(w: World, t: nat)
    requires t < |w.turns| && w.turns[t].phase.Paused?
    ensures var v := Withdraw(w, t);
      && v.sink == w.sink && v.reader == w.reader && |v.turns| == |w.turns| && Gone(v.turns[t].phase)
      && forall u :: 0 <= u < |w.turns| && u != t ==> v.turns[u] == w.turns[u]
  {
  }

  lemma ResolveSteady(w: World)
    requires HeldPaused(w) && w.reader.Busy?
    ensures var v := ResolveStep(w); GoneStays(w, v) && HeldPaused(v) && v.sink == w.sink
  {
    if WithdrawsNext(w) {
      WithdrawSteady(if w.reader.batch then w.(pending := w.pending - {w.reader.slips[|w.reader.results|].id}) else w,
                     w.reader.answers[|w.reader.results|].turn);
    }
  }

  ghost predicate Settles(w: World, v: World) {
    && GoneStays(w, v) && HeldPaused(v)
    && (v.sink == w.sink
        || (|v.sink| == |w.sink| + 1 && w.sink <= v.sink && FrameSettled(v, v.sink[|w.sink|])))
  }

  lemma ReplySettles(w: World)
    requires HeldPaused(w) && w.reader.Busy?
    ensures Settles(w, ReplyStep(w))
  {
  }

  lemma EdgesSettle(w: World, step: Step)
    requires HeldPaused(w) && !w.reader.Busy?
    ensures Settles(w, ReaderStep(w, step))
  {
  }

  lemma ReaderSettles(w: World, step: Step)
    requires HeldPaused(w)
    ensures Settles(w, ReaderStep(w, step))
  {
    if !w.reader.Busy? {
      EdgesSettle(w, step);
    } else {
      match step {
        case Handle(action) => HandleSteady(w, action);
        case Proceed => ProceedSteady(w);
        case TimeOut =>
        case Resolve => ResolveSteady(w);
        case SendReply => ReplySettles(w);
        case _ =>
      }
    }
  }

  lemma TaskSettles(w: World, step: Step, t: nat)
    requires HeldPaused(w) && t < |w.turns|
    ensures Settles(w, TaskStep(w, step, t))
  {
    TaskShape(w, step, t);
    TaskStepSteady(w, step, t);
  }

  lemma StepKeepsWithdrawn(w: World, step: Step)
    requires WithdrawnGone(w)
    ensures WithdrawnGone(Next(w, step))
  {
    if IsTaskStep(step) {
      if step.t < |w.turns| { TaskSettles(w, step, step.t); }
    } else {
      ReaderSettles(w, step);
    }
    FramesStaySettled(w, Next(w, step));
  }

  lemma {:induction false} RunKeepsWithdrawn(steps: seq<Step>)
    ensures WithdrawnGone(Run(INITIAL, steps))
    decreases |steps|
  {
    if steps != [] {
      RunKeepsWithdrawn(steps[..|steps| - 1]);
      StepKeepsWithdrawn(Run(INITIAL, steps[..|steps| - 1]), steps[|steps| - 1]);
    }
  }

  // A prompt answered as cancelled before its start never publishes anything,
  // before or after that answer.
  lemma {:induction false} WithdrawnNeverStreams(steps: seq<Step>, i: nat, t: nat)
    requires var w := Run(INITIAL, steps); i < |w.sink| && w.sink[i].Answers? && Withdrawn(t) in w.sink[i].answers
    ensures var w := Run(INITIAL, steps); forall j :: 0 <= j < |w.sink| ==> !IsFrom(w.sink[j], t)
  {
    RunKeepsAck(steps);
    RunKeepsWithdrawn(steps);
    assert FrameSettled(Run(INITIAL, steps), Run(INITIAL, steps).sink[i]);
  }
}
