/** Who holds a session's slot, in runs where nobody clears it for somebody else:
    an unfinished task always holds its session's slot itself, and a prompt that
    could not be converted holds it for good. */
module TurnOwnership {
  import opened Wrappers
  import opened Turns
  import opened TurnExclusivity

  ghost predicate Holds(w: World, t: nat) {
    && t < |w.turns| && w.turns[t].session < |w.sessions|
    && w.sessions[w.turns[t].session].slot.Claimed? && w.sessions[w.turns[t].session].slot.turn == t
  }

  ghost predicate Owned(w: World) {
    forall t :: 0 <= t < |w.turns| ==>
      (Alive(w.turns[t].phase) ==> Holds(w, t)) && !w.turns[t].phase.Dropped?
  }

  // A prompt whose conversion failed, still holding its session's slot.
  ghost predicate Stuck(w: World, t: nat) { Holds(w, t) && w.turns[t].phase.Unconverted? }

  // Every slot is held by the same turn as before, or was free and still is.
  ghost predicate SameHolders(w: World, v: World) {
    && |w.sessions| <= |v.sessions| && |v.turns| == |w.turns|
    && (forall s :: 0 <= s < |w.sessions| ==>
         (v.sessions[s].slot.Free? <==> w.sessions[s].slot.Free?)
         && (w.sessions[s].slot.Claimed? ==> v.sessions[s].slot.turn == w.sessions[s].slot.turn))
    && (forall t :: 0 <= t < |w.turns| ==>
         && v.turns[t].session == w.turns[t].session
         && (Alive(v.turns[t].phase) ==> Alive(w.turns[t].phase))
         && (v.turns[t].phase.Dropped? ==> w.turns[t].phase.Dropped?)
         && (w.turns[t].phase.Unconverted? ==> v.turns[t].phase.Unconverted?))
  }

  // What the steps below have to keep: slots owned, and whatever is stuck, stuck.
  ghost predicate Keeps(w: World, v: World) {
    Owned(v) && forall t: nat :: Stuck(w, t) ==> Stuck(v, t)
  }

  lemma SameHoldersKeep(w: World, v: World)
    requires Owned(w) && SameHolders(w, v)
    ensures Keeps(w, v)
  {
    forall t: nat | Holds(w, t) ensures Holds(v, t) {}
  }

  lemma LeaveKeeps(w: World, t: nat)
    requires Owned(w) && t < |w.turns| && w.turns[t].phase.Leaving?
    ensures Keeps(w, TaskStep(w, Leave(t), t))
  {
    var v := TaskStep(w, Leave(t), t);
    assert Holds(w, t);
    forall u: nat | Holds(w, u) && u != t ensures Holds(v, u) {}
  }

  lemma TaskKeeps(w: World, step: Step, t: nat)
    requires Owned(w) && t < |w.turns|
    ensures Keeps(w, TaskStep(w, step, t))
  {
    if step.Leave? && w.turns[t].phase.Leaving? {
      assert TaskStep(w, step, t) == TaskStep(w, Leave(t), t);
      LeaveKeeps(w, t);
    } else {
      assert !w.turns[t].phase.Dropped?;
      TaskHolders(w, step, t);
      SameHoldersKeep(w, TaskStep(w, step, t));
    }
  }

  lemma TaskHolders(w: World, step: Step, t: nat)
    requires t < |w.turns| && !(step.Leave? && w.turns[t].phase.Leaving?) && !w.turns[t].phase.Dropped?
    ensures SameHolders(w, TaskStep(w, step, t))
  {
    TaskShape(w, step, t);
    TaskPhases(w, step, t);
    assert forall s :: 0 <= s < |w.sessions| ==> TaskStep(w, step, t).sessions[s].slot == w.sessions[s].slot;
  }

  lemma ClaimKeeps(w: World, v: World, s: nat)
    requires Owned(w) && Claims(w, v, s)
    ensures Keeps(w, v)
  {
    forall t: nat | Holds(w, t) ensures Holds(v, t) {}
    assert Holds(v, |w.turns|);
  }

  lemma HandleKeeps(w: World, action: Action)
    requires Owned(w) && Basic(w) && w.reader.Busy?
    ensures Keeps(w, HandleStep(w, action))
  {
    var v := HandleStep(w, action);
    if v != w {
      HandleShape(w, action);
      if action.Prompt? && action.sid in w.directory && Claims(w, v, w.directory[action.sid]) {
        ClaimKeeps(w, v, w.directory[action.sid]);
      } else {
        assert SameHolders(w, v);
        SameHoldersKeep(w, v);
      }
    }
  }

  lemma ProceedKeeps(w: World)
    requires Owned(w) && w.reader.Busy?
    ensures Keeps(w, ProceedStep(w))
  {
    if w.reader.work.ConvertingPrompt? {
      ConvertShape(w);
    } else if Closing(w.reader.work) {
      CloseShape(w);
    } else {
      ProceedShape(w);
    }
    SameHoldersKeep(w, ProceedStep(w));
  }

  lemma StepKeeps(w: World, step: Step)
    requires Owned(w) && Basic(w) && !Withdraws(w, step) && !Forces(w, step)
    ensures Keeps(w, Next(w, step))
  {
    var v := Next(w, step);
    if IsTaskStep(step) {
      if step.t < |w.turns| { TaskKeeps(w, step, step.t); }
    } else if w.reader.Busy? && step.Handle? {
      HandleKeeps(w, step.action);
    } else if w.reader.Busy? && step.Proceed? {
      ProceedKeeps(w);
    } else {
      EdgesHold(w, step);
      SameHoldersKeep(w, v);
    }
  }

  lemma EdgesHold(w: World, step: Step)
    requires !IsTaskStep(step) && !Withdraws(w, step) && !Forces(w, step)
    requires w.reader.Busy? ==> !step.Handle? && !step.Proceed?
    ensures SameHolders(w, ReaderStep(w, step))
  {
    match w.reader
    case Ready => if step.Read? { ReadShape(w, step.line); }
    case Starting(_, _) => if step.Start? { StartShape(w); }
    case Busy(_, _, _, _, _, _, _) => assert SameSessions(w, ReaderStep(w, step));
  }

  lemma {:induction false} RunKeeps(w: World, steps: seq<Step>)
    requires Owned(w) && Basic(w) && Calm(w, steps) && Unforced(w, steps)
    ensures Keeps(w, Run(w, steps))
    decreases |steps|
  {
    if steps != [] {
      var front := steps[..|steps| - 1];
      RunKeeps(w, front);
      RunKeepsBasic(w, front);
      StepKeeps(Run(w, front), steps[|steps| - 1]);
    }
  }

  // With no prompt cancelled before its start and no close giving up, a session
  // has at most one unfinished task, and while it exists the slot is claimed for
  // that very task.
  lemma {:induction false} UnfinishedHoldsSlot(steps: seq<Step>, t: nat)
    requires Calm(INITIAL, steps) && Unforced(INITIAL, steps)
    requires t < |Run(INITIAL, steps).turns| && Live(Run(INITIAL, steps).turns[t].phase)
    ensures var w := Run(INITIAL, steps);
      Holds(w, t) && forall u: nat :: LiveOn(w, u, w.turns[t].session) ==> u == t
  {
    RunKeeps(INITIAL, steps);
    var w := Run(INITIAL, steps);
    forall u: nat | LiveOn(w, u, w.turns[t].session) ensures u == t {
      assert Holds(w, u) && Holds(w, t);
    }
  }

  // A prompt refused after the claim leaves the slot claimed without a task.
  lemma RefusedPromptSticks(w: World)
    requires Owned(w) && w.reader.Busy? && w.reader.work.ConvertingPrompt? && !w.reader.work.convertible
    requires w.reader.work.turn < |w.turns| && w.turns[w.reader.work.turn].phase.Converting?
    ensures Stuck(Next(w, Proceed), w.reader.work.turn)
  {
    assert Holds(w, w.reader.work.turn);
  }

  // ------------------------------------------------------- who a claim is for

  // A claimed slot belongs to a turn of its own session that is unfinished or was
  // refused.
  ghost predicate Accounted(w: World) {
    forall s :: 0 <= s < |w.sessions| && w.sessions[s].slot.Claimed? ==> AccountedFor(w, s, w.sessions[s].slot.turn)
  }

  ghost predicate AccountedFor(w: World, s: nat, t: nat) {
    && t < |w.turns| && w.turns[t].session == s
    && (Alive(w.turns[t].phase) || w.turns[t].phase.Unconverted?)
  }

  lemma TaskAlive(w: World, step: Step, t: nat)
    requires t < |w.turns| && !(step.Leave? && w.turns[t].phase.Leaving?)
    requires Alive(w.turns[t].phase) || w.turns[t].phase.Unconverted?
    ensures var q := TaskStep(w, step, t).turns[t].phase; Alive(q) || q.Unconverted?
  {
  }

  lemma TaskAccounts(w: World, step: Step, t: nat)
    requires Owned(w) && Accounted(w) && t < |w.turns|
    ensures Accounted(TaskStep(w, step, t))
  {
    var v := TaskStep(w, step, t);
    TaskShape(w, step, t);
    if step.Leave? && w.turns[t].phase.Leaving? {
      assert Holds(w, t);
    } else {
      TaskHolders(w, step, t);
      if Alive(w.turns[t].phase) || w.turns[t].phase.Unconverted? { TaskAlive(w, step, t); }
    }
    forall s | 0 <= s < |v.sessions| && v.sessions[s].slot.Claimed?
      ensures AccountedFor(v, s, v.sessions[s].slot.turn)
    {
      assert AccountedFor(w, s, w.sessions[s].slot.turn);
    }
  }

  lemma HandleAccounts(w: World, action: Action)
    requires Accounted(w) && Registry(w) && w.reader.Busy?
    ensures Accounted(HandleStep(w, action))
  {
    var v := HandleStep(w, action);
    if v != w {
      HandleShape(w, action);
      forall s | 0 <= s < |v.sessions| && v.sessions[s].slot.Claimed?
        ensures AccountedFor(v, s, v.sessions[s].slot.turn)
      {
        if s < |w.sessions| && w.sessions[s].slot.Claimed? { assert AccountedFor(w, s, w.sessions[s].slot.turn); }
      }
    }
  }

  lemma ProceedAccounts(w: World)
    requires Accounted(w) && w.reader.Busy?
    ensures Accounted(ProceedStep(w))
  {
    var v := ProceedStep(w);
    if w.reader.work.ConvertingPrompt? {
      ConvertShape(w);
    } else if Closing(w.reader.work) {
      CloseShape(w);
    } else {
      ProceedShape(w);
    }
    forall s | 0 <= s < |v.sessions| && v.sessions[s].slot.Claimed?
      ensures AccountedFor(v, s, v.sessions[s].slot.turn)
    {
      assert AccountedFor(w, s, w.sessions[s].slot.turn);
    }
  }

  lemma StepAccounts(w: World, step: Step)
    requires Owned(w) && Accounted(w) && Registry(w) && !Withdraws(w, step) && !Forces(w, step)
    ensures Accounted(Next(w, step))
  {
    if IsTaskStep(step) {
      if step.t < |w.turns| { TaskAccounts(w, step, step.t); }
    } else if w.reader.Starting? {
      if step.Start? { StartAccounts(w); }
    } else if w.reader.Busy? && step.Handle? {
      HandleAccounts(w, step.action);
    } else if w.reader.Busy? && step.Proceed? {
      ProceedAccounts(w);
    } else {
      assert SameSessions(w, ReaderStep(w, step));
    }
  }

  lemma StartAccounts(w: World)
    requires Accounted(w) && w.reader.Starting?
    ensures Accounted(StartStep(w))
  {
    StartShape(w);
    forall s | 0 <= s < |w.sessions| && w.sessions[s].slot.Claimed?
      ensures AccountedFor(StartStep(w), s, w.sessions[s].slot.turn)
    {
      assert AccountedFor(w, s, w.sessions[s].slot.turn);
    }
  }

  lemma {:induction false} RunAccounts(steps: seq<Step>)
    requires Calm(INITIAL, steps) && Unforced(INITIAL, steps)
    ensures Accounted(Run(INITIAL, steps))
    decreases |steps|
  {
    if steps != [] {
      var front := steps[..|steps| - 1];
      RunAccounts(front);
      RunKeeps(INITIAL, front);
      RunKeepsBasic(INITIAL, front);
      StepAccounts(Run(INITIAL, front), steps[|steps| - 1]);
    }
  }

  // With no prompt cancelled before its start and no close giving up, a session
  // has an unfinished turn exactly if its slot is claimed and not by a refused
  // prompt; and its slot is claimed with no unfinished turn exactly if it is held
  // by a refused prompt.
  lemma {:induction false} ClaimedExactly(steps: seq<Step>, w: World, s: nat)
    requires w == Run(INITIAL, steps) && Calm(INITIAL, steps) && Unforced(INITIAL, steps) && s < |w.sessions|
    ensures (exists t: nat :: AliveOn(w, t, s)) <==>
      w.sessions[s].slot.Claimed? && !Stuck(w, w.sessions[s].slot.turn)
    ensures w.sessions[s].slot.Claimed? && NoneAlive(w, s) <==>
      exists t: nat :: Stuck(w, t) && w.turns[t].session == s
  {
    RunKeeps(INITIAL, steps);
    RunAccounts(steps);
    if t: nat :| AliveOn(w, t, s) {
      assert Holds(w, t);
    }
    if w.sessions[s].slot.Claimed? {
      var t := w.sessions[s].slot.turn;
      assert AccountedFor(w, s, t);
      if Alive(w.turns[t].phase) { assert AliveOn(w, t, s); } else { assert Stuck(w, t); }
    }
  }

  lemma HolderOnly(w: World, t: nat, u: nat)
    requires Owned(w) && Holds(w, t) && u != t
    ensures !AliveOn(w, u, w.turns[t].session)
  {
    assert u < |w.turns| && Alive(w.turns[u].phase) ==> Holds(w, u);
  }

  ghost predicate RefusesPrompts(w: World, s: nat) {
    forall sid, convertible :: w.reader.Busy? && sid in w.directory && w.directory[sid] == s ==>
      Claim(w, sid, convertible) == Answered(w, Plain(Err(BUSY)))
  }

  // From then on the session runs no task, and refuses every prompt as busy.
  lemma {:induction false} StuckForever(before: seq<Step>, w: World, after: seq<Step>, v: World, t: nat)
    requires w == Run(INITIAL, before) && Calm(INITIAL, before) && Unforced(INITIAL, before) && Stuck(w, t)
    requires v == Run(w, after) && Calm(w, after) && Unforced(w, after)
    ensures Stuck(v, t)
    ensures (forall u: nat :: !AliveOn(v, u, v.turns[t].session)) && RefusesPrompts(v, v.turns[t].session)
  {
    RunKeeps(INITIAL, before);
    RunKeepsBasic(INITIAL, before);
    RunKeeps(w, after);
    assert Stuck(v, t);
    forall u: nat ensures !AliveOn(v, u, v.turns[t].session) {
      if u != t { HolderOnly(v, t, u); }
    }
  }
}
