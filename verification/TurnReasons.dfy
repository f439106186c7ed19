/** When a turn's end is reported as cancelled, exactly: which looks at the mark
    and at the abort flag decide it, and what a mark that comes later loses. */
module TurnReasons {
  import opened Turns
  import opened TurnExclusivity
  import opened TurnCancellation
  import U = UpdateMapper

  // ------------------------------------------------------- the looks of a task

  // The slot the task would find is marked for cancellation.
  predicate Marked(w: World, t: nat)
    requires t < |w.turns|
  {
    SlotOf(w, w.turns[t].session).Cancelled()
  }

  predicate EngineAborted(w: World, t: nat)
    requires t < |w.turns|
  {
    w.turns[t].session < |w.sessions| && w.sessions[w.turns[t].session].aborted
  }

  // The step is the task's look at the slot for a result, at the abort flag when
  // it maps that result, or at the slot when the stream is over.
  predicate LooksForResult(w: World, step: Step, t: nat) {
    step.Poll? && step.t == t && t < |w.turns| && w.turns[t].phase.Polling? && step.msg.Result?
  }

  predicate LooksAtAbort(w: World, step: Step, t: nat) {
    step.MapRead? && step.t == t && t < |w.turns| && w.turns[t].phase.ResultRead?
  }

  predicate LooksAtEnd(w: World, step: Step, t: nat) {
    step.EndStream? && step.t == t && t < |w.turns| && w.turns[t].phase.Polling?
  }

  function MarkNow(w: World, step: Step, t: nat): seq<bool> {
    if LooksForResult(w, step, t) then [Marked(w, t)] else []
  }

  function AbortNow(w: World, step: Step, t: nat): seq<bool> {
    if LooksAtAbort(w, step, t) then [EngineAborted(w, t)] else []
  }

  predicate EndNow(w: World, step: Step, t: nat) { LooksAtEnd(w, step, t) && Marked(w, t) }

  // For each result of the task, in order, whether the mark was there when the
  // task read the slot.
  function MarksSeen(steps: seq<Step>, t: nat): seq<bool> {
    if steps == [] then []
    else
      var w, step := Run(INITIAL, steps[..|steps| - 1]), steps[|steps| - 1];
      MarksSeen(steps[..|steps| - 1], t) + MarkNow(w, step, t)
  }

  // For each result it mapped, whether the engine was aborted then.
  function AbortsSeen(steps: seq<Step>, t: nat): seq<bool> {
    if steps == [] then []
    else
      var w, step := Run(INITIAL, steps[..|steps| - 1]), steps[|steps| - 1];
      AbortsSeen(steps[..|steps| - 1], t) + AbortNow(w, step, t)
  }

  // Whether the mark was there when the stream was over.
  predicate MarkSeenAtEnd(steps: seq<Step>, t: nat) {
    steps != []
    && var w, step := Run(INITIAL, steps[..|steps| - 1]), steps[|steps| - 1];
       MarkSeenAtEnd(steps[..|steps| - 1], t) || EndNow(w, step, t)
  }

  // ------------------------------------------------------------------ invariant

  // The i-th idle is "cancelled" exactly if the i-th look at the slot, or the
  // i-th look at the abort flag, said so.
  ghost predicate Agrees(told: seq<U.StopReason>, marks: seq<bool>, aborts: seq<bool>) {
    && |told| == |aborts| <= |marks|
    && forall i :: 0 <= i < |told| ==> (told[i].Cancelled? <==> marks[i] || aborts[i])
  }

  predicate Over(phase: Phase) { phase.Leaving? || phase == Done(true) }

  // Which looks a task in this phase has had.
  ghost predicate Looked(phase: Phase, marks: seq<bool>, aborts: seq<bool>, end: bool) {
    && (if phase.ResultRead? then |marks| == |aborts| + 1 && marks[|aborts|] == phase.cancelled
        else |marks| == |aborts|)
    && (!HasRun(phase) ==> marks == [])
    && (end ==> phase.Ended? || Over(phase))
    && (phase.Ended? ==> phase.cancelled == end)
  }

  ghost predicate Explains(phase: Phase, told: seq<U.StopReason>, marks: seq<bool>, aborts: seq<bool>, end: bool) {
    if Over(phase) && marks == [] then told == (if end then [U.Cancelled] else []) else Agrees(told, marks, aborts)
  }

  ghost predicate Explained(steps: seq<Step>, w: World, t: nat) {
    if t < |w.turns| then
      && w.turns[t].results == |MarksSeen(steps, t)|
      && Looked(w.turns[t].phase, MarksSeen(steps, t), AbortsSeen(steps, t), MarkSeenAtEnd(steps, t))
      && Explains(w.turns[t].phase, Told(w, t), MarksSeen(steps, t), AbortsSeen(steps, t), MarkSeenAtEnd(steps, t))
    else MarksSeen(steps, t) == AbortsSeen(steps, t) == [] && !MarkSeenAtEnd(steps, t)
  }

  lemma ReadReasons(w: World, step: Step, t: nat)
    requires t < |w.turns| && w.turns[t].phase.ResultRead?
    ensures ReasonRead(w, t).Cancelled? <==> w.turns[t].phase.cancelled || EngineAborted(w, t)
  {
  }

  predicate IsLook(step: Step) { step.Poll? || step.MapRead? || step.EndStream? }

  lemma LookLooks(w: World, step: Step, t: nat, marks: seq<bool>, aborts: seq<bool>, end: bool)
    requires t < |w.turns| && IsLook(step) && step.t == t && Looked(w.turns[t].phase, marks, aborts, end)
    ensures Looked(TaskStep(w, step, t).turns[t].phase,
                   marks + MarkNow(w, step, t), aborts + AbortNow(w, step, t), end || EndNow(w, step, t))
  {
  }

  lemma NoLookLooks(w: World, step: Step, t: nat, marks: seq<bool>, aborts: seq<bool>, end: bool)
    requires t < |w.turns| && IsTaskStep(step) && !IsLook(step) && Looked(w.turns[t].phase, marks, aborts, end)
    ensures Looked(TaskStep(w, step, t).turns[t].phase, marks, aborts, end)
  {
  }

  // What one step of the task does to all this, whatever was told before.
  lemma OwnLooks(w: World, step: Step, t: nat, marks: seq<bool>, aborts: seq<bool>, end: bool)
    requires t < |w.turns| && IsTaskStep(step) && step.t == t && Looked(w.turns[t].phase, marks, aborts, end)
    ensures Looked(TaskStep(w, step, t).turns[t].phase,
                   marks + MarkNow(w, step, t), aborts + AbortNow(w, step, t), end || EndNow(w, step, t))
  {
    if IsLook(step) {
      LookLooks(w, step, t, marks, aborts, end);
    } else {
      NoLookLooks(w, step, t, marks, aborts, end);
      assert marks + [] == marks && aborts + [] == aborts;
    }
  }

  lemma OwnExplains(w: World, step: Step, t: nat, told: seq<U.StopReason>, marks: seq<bool>, aborts: seq<bool>,
      end: bool)
    requires t < |w.turns| && IsTaskStep(step) && step.t == t
    requires w.turns[t].results == |marks| && Looked(w.turns[t].phase, marks, aborts, end)
    requires Explains(w.turns[t].phase, told, marks, aborts, end)
    ensures Explains(TaskStep(w, step, t).turns[t].phase, told + NewIdles(w, step, t),
                     marks + MarkNow(w, step, t), aborts + AbortNow(w, step, t), end || EndNow(w, step, t))
  {
    if LooksAtAbort(w, step, t) { ReadReasons(w, step, t); }
  }

  lemma Grown(steps: seq<Step>, w: World, step: Step, v: World, t: nat)
    requires w == Run(INITIAL, steps) && Explained(steps, w, t) && t < |w.turns| && t < |v.turns|
    requires v.turns[t].results == |MarksSeen(steps, t) + MarkNow(w, step, t)|
    requires Looked(v.turns[t].phase, MarksSeen(steps, t) + MarkNow(w, step, t),
                    AbortsSeen(steps, t) + AbortNow(w, step, t), MarkSeenAtEnd(steps, t) || EndNow(w, step, t))
    requires Explains(v.turns[t].phase, Told(v, t), MarksSeen(steps, t) + MarkNow(w, step, t),
                      AbortsSeen(steps, t) + AbortNow(w, step, t), MarkSeenAtEnd(steps, t) || EndNow(w, step, t))
    ensures Explained(steps + [step], v, t)
  {
    assert (steps + [step])[..|steps|] == steps;
  }

  lemma OwnStepExplained(steps: seq<Step>, w: World, step: Step, t: nat)
    requires w == Run(INITIAL, steps) && Explained(steps, w, t) && t < |w.turns| && IsTaskStep(step) && step.t == t
    ensures Explained(steps + [step], TaskStep(w, step, t), t)
  {
    StepTold(w, step, t);
    OwnLooks(w, step, t, MarksSeen(steps, t), AbortsSeen(steps, t), MarkSeenAtEnd(steps, t));
    OwnExplains(w, step, t, Told(w, t), MarksSeen(steps, t), AbortsSeen(steps, t), MarkSeenAtEnd(steps, t));
    TaskShape(w, step, t);
    Grown(steps, w, step, TaskStep(w, step, t), t);
  }

  // A step that is no look of the task's, and changes nothing of it that has run.
  lemma AsideExplained(steps: seq<Step>, w: World, step: Step, v: World, t: nat)
    requires w == Run(INITIAL, steps) && Explained(steps, w, t)
    requires IsTaskStep(step) && step.t == t ==> t >= |w.turns|
    requires |w.turns| <= |v.turns|
    requires t < |w.turns| ==> Told(v, t) == Told(w, t) && v.turns[t].results == w.turns[t].results
    requires t < |w.turns| ==>
      v.turns[t].phase == w.turns[t].phase || (!HasRun(w.turns[t].phase) && !HasRun(v.turns[t].phase))
    requires |w.turns| <= t < |v.turns| ==>
      !HasRun(v.turns[t].phase) && v.turns[t].results == 0 && Told(v, t) == []
    ensures Explained(steps + [step], v, t)
  {
    var more := steps + [step];
    assert more[..|steps|] == steps;
    assert MarksSeen(more, t) == MarksSeen(steps, t) && AbortsSeen(more, t) == AbortsSeen(steps, t);
    assert MarkSeenAtEnd(more, t) == MarkSeenAtEnd(steps, t);
  }

  lemma ReaderStepExplained(steps: seq<Step>, w: World, step: Step, t: nat)
    requires w == Run(INITIAL, steps) && Explained(steps, w, t) && !IsTaskStep(step)
    ensures Explained(steps + [step], ReaderStep(w, step), t)
  {
    var v := ReaderStep(w, step);
    RunKeepsBasic(INITIAL, steps);
    RunTallies(steps);
    ReaderAside(w, step);
    AsideKeepsTally(w, v);
    if t < |w.turns| { AsideTold(w, v, t); }
    AsideExplained(steps, w, step, v, t);
  }

  lemma OtherStepExplained(steps: seq<Step>, w: World, step: Step, u: nat, t: nat)
    requires w == Run(INITIAL, steps) && Explained(steps, w, t) && IsTaskStep(step) && step.t == u != t
    ensures Explained(steps + [step], Next(w, step), t)
  {
    if u < |w.turns| {
      TaskShape(w, step, u);
      if t < |w.turns| { OthersTold(w, step, u, t); }
    }
    AsideExplained(steps, w, step, Next(w, step), t);
  }

  lemma StepExplained(steps: seq<Step>, w: World, step: Step, t: nat)
    requires w == Run(INITIAL, steps) && Explained(steps, w, t)
    ensures Explained(steps + [step], Next(w, step), t)
  {
    if !IsTaskStep(step) {
      ReaderStepExplained(steps, w, step, t);
    } else if step.t != t {
      OtherStepExplained(steps, w, step, step.t, t);
    } else if t < |w.turns| {
      OwnStepExplained(steps, w, step, t);
    } else {
      AsideExplained(steps, w, step, w, t);
    }
  }

  lemma {:induction false} RunExplained(steps: seq<Step>, t: nat)
    ensures Explained(steps, Run(INITIAL, steps), t)
    decreases |steps|
  {
    if steps != [] {
      var front, last := steps[..|steps| - 1], steps[|steps| - 1];
      RunExplained(front, t);
      StepExplained(front, Run(INITIAL, front), last, t);
      RunOneMore(INITIAL, front, last);
      assert steps == front + [last];
    }
  }

  // ------------------------------------------------------------------- theorems

  // A finished task has told of one idle per result, the i-th of them "cancelled"
  // exactly if the mark was set when it read the slot for the i-th result or the
  // engine was aborted when it mapped that result. If there was no result, it has
  // told "cancelled" exactly if the mark was set when the stream was over, and
  // otherwise nothing.
  lemma {:induction false} ReasonsExactly(steps: seq<Step>, w: World, t: nat)
    requires w == Run(INITIAL, steps) && HasFinished(w, t)
    ensures var idles, marks, aborts := IdlesFrom(w.sink, t), MarksSeen(steps, t), AbortsSeen(steps, t);
      && w.turns[t].results == |marks| == |aborts|
      && (if marks == [] then idles == (if MarkSeenAtEnd(steps, t) then [U.Cancelled] else [])
          else |idles| == |marks| && forall i :: 0 <= i < |idles| ==> (idles[i].Cancelled? <==> marks[i] || aborts[i]))
  {
    RunExplained(steps, t);
    assert Told(w, t) == IdlesFrom(w.sink, t);
  }

  // In particular, with the single result the engine promises.
  lemma {:induction false} OneResultExactly(steps: seq<Step>, w: World, t: nat)
    requires w == Run(INITIAL, steps) && HasFinished(w, t) && w.turns[t].results == 1
    ensures |IdlesFrom(w.sink, t)| == |MarksSeen(steps, t)| == |AbortsSeen(steps, t)| == 1
    ensures IdlesFrom(w.sink, t) == [U.Cancelled] <==> MarksSeen(steps, t)[0] || AbortsSeen(steps, t)[0]
  {
    ReasonsExactly(steps, w, t);
    assert IdlesFrom(w.sink, t)[0].Cancelled? ==> IdlesFrom(w.sink, t) == [U.Cancelled];
  }

  // ------------------------------------------------------------ marked in time

  predicate PastEnd(phase: Phase) { phase.Ended? || Over(phase) }

  lemma StepStaysPastEnd(w: World, step: Step, t: nat)
    requires Registry(w) && t < |w.turns| && PastEnd(w.turns[t].phase)
    ensures var v := Next(w, step);
      && t < |v.turns| && PastEnd(v.turns[t].phase) && v.turns[t].results == w.turns[t].results
      && !LooksAtEnd(w, step, t)
  {
    if !IsTaskStep(step) {
      ReaderAside(w, step);
    } else if step.t < |w.turns| {
      TaskShape(w, step, step.t);
    }
  }

  lemma {:induction false} StaysPastEnd(before: seq<Step>, w: World, after: seq<Step>, t: nat)
    requires w == Run(INITIAL, before) && t < |w.turns| && PastEnd(w.turns[t].phase)
    ensures t < |Run(w, after).turns| && PastEnd(Run(w, after).turns[t].phase)
    ensures Run(w, after).turns[t].results == w.turns[t].results
    ensures MarkSeenAtEnd(before + after, t) == MarkSeenAtEnd(before, t)
    decreases |after|
  {
    if after == [] {
      assert before + after == before;
    } else {
      var front, last := after[..|after| - 1], after[|after| - 1];
      StaysPastEnd(before, w, front, t);
      RunAppend(INITIAL, before, front);
      RunKeepsBasic(INITIAL, before + front);
      StepStaysPastEnd(Run(w, front), last, t);
      assert (before + after)[..|before + after| - 1] == before + front;
    }
  }

  // A turn marked before its first result, and unfinished: while it keeps its
  // slot, and with one result at most, the task ends by telling just "cancelled"
  // exactly if the mark came before it found its stream over.
  lemma {:induction false} MarkKeptExactly(before: seq<Step>, w: World, after: seq<Step>, v: World, t: nat)
    requires w == Run(INITIAL, before) && Flagged(w, t) && w.turns[t].results == 0
    requires Live(w.turns[t].phase) && !w.turns[t].phase.Leaving?
    requires v == Run(w, after) && KeepsSlot(w, after, t) && HasFinished(v, t) && v.turns[t].results <= 1
    ensures if w.turns[t].phase == Ended(false) then IdlesFrom(v.sink, t) == []
      else IdlesFrom(v.sink, t) == [U.Cancelled]
  {
    if w.turns[t].phase.Ended? {
      StaysPastEnd(before, w, after, t);
      RunExplained(before, t);
      RunAppend(INITIAL, before, after);
      ReasonsExactly(before + after, v, t);
    } else {
      CancellationNotLost(before, w, after, v, t);
    }
  }

  // A turn marked after the slot was read for its only result: the task ends by
  // telling "cancelled" exactly if the slot was already marked when it was read,
  // or the engine is aborted when the result is mapped.
  lemma {:induction false} LateMarkKeptExactly(before: seq<Step>, w: World, after: seq<Step>, v: World, t: nat)
    requires w == Run(INITIAL, before) && Flagged(w, t) && w.turns[t].results == 1 && w.turns[t].phase.ResultRead?
    requires v == Run(w, after) && HasFinished(v, t) && v.turns[t].results == 1
    ensures |AbortsSeen(before + after, t)| == 1
    ensures IdlesFrom(v.sink, t) == [U.Cancelled] <==> w.turns[t].phase.cancelled || AbortsSeen(before + after, t)[0]
  {
    RunExplained(before, t);
    RunAppend(INITIAL, before, after);
    OneResultExactly(before + after, v, t);
    MarksSeenGrow(before, after, t);
  }

  lemma {:induction false} MarksSeenGrow(before: seq<Step>, after: seq<Step>, t: nat)
    ensures MarksSeen(before, t) <= MarksSeen(before + after, t)
    decreases |after|
  {
    if after == [] {
      assert before + after == before;
    } else {
      assert (before + after)[..|before + after| - 1] == before + after[..|after| - 1];
      MarksSeenGrow(before, after[..|after| - 1], t);
    }
  }
}
