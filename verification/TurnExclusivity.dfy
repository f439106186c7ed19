/** Turn exclusivity: when a session can have two unfinished prompt tasks. */
module TurnExclusivity {
  import opened Jsonrpc
  import opened Turns

  // The task exists, has not lost its start signal, and is not done.
  predicate Live(phase: Phase) {
    phase.Paused? || phase.Signalled? || phase.Woken? || phase.Announced? || phase.Polling? || phase.ResultRead?
    || phase.Sending? || phase.Ended? || phase.Leaving?
  }

  // Live, or about to be spawned.
  predicate Alive(phase: Phase) { Live(phase) || phase.Converting? }

  predicate AliveOn(w: World, t: nat, s: nat) {
    t < |w.turns| && w.turns[t].session == s && Alive(w.turns[t].phase)
  }

  predicate DroppedOn(w: World, t: nat, s: nat) {
    t < |w.turns| && w.turns[t].session == s && w.turns[t].phase.Dropped?
  }

  predicate LiveOn(w: World, t: nat, s: nat) {
    t < |w.turns| && w.turns[t].session == s && Live(w.turns[t].phase)
  }

  // No session object has two live tasks.
  ghost predicate Exclusive(w: World) {
    forall s: nat, t: nat, u: nat :: LiveOn(w, t, s) && LiveOn(w, u, s) ==> t == u
  }

  // The two steps that clear a slot on behalf of somebody else's turn.
  predicate Withdraws(w: World, step: Step) { step.Resolve? && WithdrawsNext(w) }

  predicate Forces(w: World, step: Step) { step.TimeOut? && w.reader.Busy? && w.reader.work.ClosingWait? }

  // A run in which no prompt is cancelled before its start.
  ghost predicate Calm(w: World, steps: seq<Step>)
    decreases |steps|
  {
    steps == []
    || (Calm(w, steps[..|steps| - 1]) && !Withdraws(Run(w, steps[..|steps| - 1]), steps[|steps| - 1]))
  }

  // A run in which no close gives up waiting.
  ghost predicate Unforced(w: World, steps: seq<Step>)
    decreases |steps|
  {
    steps == []
    || (Unforced(w, steps[..|steps| - 1]) && !Forces(Run(w, steps[..|steps| - 1]), steps[|steps| - 1]))
  }

  // ------------------------------------------------------------ basic invariant

  ghost predicate Registry(w: World) {
    forall sid :: sid in w.directory ==> w.directory[sid] < |w.sessions| && w.sessions[w.directory[sid]].sid == sid
  }

  ghost predicate Basic(w: World) {
    && Registry(w)
    && (forall t :: 0 <= t < |w.turns| ==> w.turns[t].session < |w.sessions|)
    && (forall t :: 0 <= t < |w.turns| && w.turns[t].phase.Converting? ==>
         w.reader.Busy? && w.reader.work.ConvertingPrompt? && w.reader.work.turn == t)
  }

  lemma TaskKeepsBasic(w: World, step: Step, t: nat)
    requires Basic(w) && t < |w.turns|
    ensures Basic(TaskStep(w, step, t))
  {
    TaskShape(w, step, t);
    TaskPhases(w, step, t);
  }

  lemma HandleKeepsBasic(w: World, action: Action)
    requires Basic(w) && w.reader.Busy?
    ensures Basic(HandleStep(w, action))
  {
    if HandleStep(w, action) != w { HandleShape(w, action); }
  }

  lemma ConvertShape(w: World)
    requires w.reader.Busy? && w.reader.work.ConvertingPrompt?
    ensures var t, v := w.reader.work.turn, Convert(w);
      v == w || (t < |w.turns| && w.turns[t].phase.Converting? && v.sessions == w.sessions && v.directory == w.directory
                 && v.turns == w.turns[t := w.turns[t].(phase := v.turns[t].phase)]
                 && (v.turns[t].phase == if w.reader.work.convertible then Paused else Unconverted)
                 && v.reader.Busy? && v.reader.work.NoWork?)
  {
  }

  lemma ProceedKeepsBasic(w: World)
    requires Basic(w) && w.reader.Busy?
    ensures Basic(ProceedStep(w))
  {
    if w.reader.work.ConvertingPrompt? {
      ConvertShape(w);
    } else if Closing(w.reader.work) {
      CloseShape(w);
    } else {
      ProceedShape(w);
    }
  }

  lemma WithdrawShape(w: World, t: nat)
    ensures var v := Withdraw(w, t);
      v == w || (t < |w.turns| && w.turns[t].phase.Paused? && v.directory == w.directory
                 && v.reader == w.reader && v.turns == w.turns[t := w.turns[t].(phase := Dropped)]
                 && v.sessions == SetSlot(w, w.turns[t].session, Free).sessions)
  {
  }

  lemma ResolveKeepsBasic(w: World)
    requires Basic(w) && w.reader.Busy?
    ensures Basic(ResolveStep(w))
  {
    var r := w.reader;
    if WithdrawsNext(w) {
      WithdrawShape(if r.batch then w.(pending := w.pending - {r.slips[|r.results|].id}) else w,
                    r.answers[|r.results|].turn);
    }
  }

  lemma TimeOutShape(w: World)
    requires w.reader.Busy? && w.reader.work.ClosingWait?
    ensures var s, v := w.reader.work.session, TimeOutStep(w);
      && v.turns == w.turns && v.directory == w.directory && v.sessions == SetSlot(w, s, Free).sessions
      && v.reader.Busy? && v.reader.work.ClosingNotify? && v.reader.work.session == s
  {
  }

  lemma ReadShape(w: World, line: Line)
    ensures SameSessions(w, ReadStep(w, line))
  {
  }

  lemma StartShape(w: World)
    requires w.reader.Starting?
    ensures var v := StartStep(w);
      && v.sessions == w.sessions && v.directory == w.directory && !v.reader.Busy? && |v.turns| == |w.turns|
      && forall t :: 0 <= t < |w.turns| ==>
        v.turns[t] == w.turns[t] || (w.turns[t].phase.Paused? && v.turns[t] == w.turns[t].(phase := Signalled))
  {
  }

  lemma ReaderKeepsBasic(w: World, step: Step)
    requires Basic(w)
    ensures Basic(ReaderStep(w, step))
  {
    match w.reader
    case Ready => if step.Read? { ReadShape(w, step.line); }
    case Starting(_, _) => if step.Start? { StartShape(w); }
    case Busy(_, _, _, _, _, _, _) =>
      match step {
        case Handle(action) => HandleKeepsBasic(w, action);
        case Proceed => ProceedKeepsBasic(w);
        case TimeOut => if w.reader.work.ClosingWait? { TimeOutShape(w); }
        case Resolve => ResolveKeepsBasic(w);
        case SendReply => assert SameSessions(w, ReplyStep(w));
        case _ =>
      }
  }

  lemma StepKeepsBasic(w: World, step: Step)
    requires Basic(w)
    ensures Basic(Next(w, step))
  {
    if !IsTaskStep(step) {
      ReaderKeepsBasic(w, step);
    } else if step.t < |w.turns| {
      TaskKeepsBasic(w, step, step.t);
    }
  }

  lemma {:induction false} RunKeepsBasic(w: World, steps: seq<Step>)
    requires Basic(w)
    ensures Basic(Run(w, steps))
    decreases |steps|
  {
    if steps != [] {
      RunKeepsBasic(w, steps[..|steps| - 1]);
      StepKeepsBasic(Run(w, steps[..|steps| - 1]), steps[|steps| - 1]);
    }
  }

  // ------------------------------------------------------------- safe sessions

  ghost predicate AtMostOneAlive(w: World, s: nat) {
    forall t: nat, u: nat :: AliveOn(w, t, s) && AliveOn(w, u, s) ==> t == u
  }

  ghost predicate NoneAlive(w: World, s: nat) { forall t: nat :: !AliveOn(w, t, s) }

  // No cancelled task is still to wake, and a free slot means no task.
  ghost predicate Healthy(w: World, s: nat) {
    (forall t: nat :: !DroppedOn(w, t, s)) && (SlotOf(w, s).Free? ==> NoneAlive(w, s))
  }

  // One cancelled task is still to wake, behind a slot that nothing else clears:
  // there is no task, so the claim is that of a prompt that was never converted.
  ghost predicate Blocked(w: World, s: nat, d: nat) {
    && DroppedOn(w, d, s) && (forall t: nat :: DroppedOn(w, t, s) ==> t == d)
    && NoneAlive(w, s) && SlotOf(w, s).Claimed?
  }

  ghost predicate Safe(w: World, s: nat) {
    AtMostOneAlive(w, s) && (Healthy(w, s) || exists d: nat :: Blocked(w, s, d))
  }

  // A closing session past its forced clear: its id is about to leave the
  // directory, and the reader takes no prompt before that.
  predicate Doomed(w: World, s: nat) {
    w.reader.Busy? && (w.reader.work.ClosingNotify? || w.reader.work.ClosingRemove?) && w.reader.work.session == s
  }

  ghost predicate AllSafe(w: World) {
    && (forall s :: 0 <= s < |w.sessions| ==> AtMostOneAlive(w, s))
    && (forall sid :: sid in w.directory ==> Safe(w, w.directory[sid]) || Doomed(w, w.directory[sid]))
  }

  // Nothing was claimed, freed or dropped, and no task was added.
  ghost predicate Shrinks(w: World, v: World) {
    && |v.turns| == |w.turns| && |v.sessions| == |w.sessions|
    && (forall t :: 0 <= t < |w.turns| ==>
         && v.turns[t].session == w.turns[t].session
         && (Alive(v.turns[t].phase) ==> Alive(w.turns[t].phase))
         && (v.turns[t].phase.Dropped? <==> w.turns[t].phase.Dropped?))
    && (forall s :: 0 <= s < |w.sessions| ==> (v.sessions[s].slot.Free? <==> w.sessions[s].slot.Free?))
  }

  lemma ShrinksKeepsSafe(w: World, v: World, s: nat)
    requires Shrinks(w, v) && AtMostOneAlive(w, s)
    ensures AtMostOneAlive(v, s) && (Safe(w, s) ==> Safe(v, s))
  {
    forall t: nat | AliveOn(v, t, s) ensures AliveOn(w, t, s) {}
    forall t: nat ensures DroppedOn(v, t, s) <==> DroppedOn(w, t, s) {}
    if Safe(w, s) && !Healthy(w, s) {
      var d: nat :| Blocked(w, s, d);
      assert Blocked(v, s, d);
    }
  }

  lemma ShrinksKeepsAllSafe(w: World, v: World)
    requires Basic(w) && AllSafe(w) && Shrinks(w, v)
    requires forall sid :: sid in v.directory ==> sid in w.directory && v.directory[sid] == w.directory[sid]
    requires forall s :: Doomed(w, s) ==> Doomed(v, s) || forall sid :: sid in v.directory ==> v.directory[sid] != s
    ensures AllSafe(v)
  {
    forall s | 0 <= s < |v.sessions| ensures AtMostOneAlive(v, s) && (Safe(w, s) ==> Safe(v, s)) {
      ShrinksKeepsSafe(w, v, s);
    }
  }

  // A task's last step: it clears its session's slot and is no longer alive, or
  // no longer dropped.
  ghost predicate Clears(w: World, v: World, t: nat) {
    && t < |w.turns| == |v.turns| && |v.sessions| == |w.sessions|
    && (forall u :: 0 <= u < |w.turns| && u != t ==> v.turns[u] == w.turns[u])
    && v.turns[t].session == w.turns[t].session && v.turns[t].phase.Done?
    && (forall s :: 0 <= s < |w.sessions| ==>
         v.sessions[s].slot == if s == w.turns[t].session then Free else w.sessions[s].slot)
  }

  lemma ClearsKeepsSafe(w: World, v: World, t: nat, s: nat)
    requires Clears(w, v, t) && AtMostOneAlive(w, s) && s < |w.sessions|
    requires Alive(w.turns[t].phase) || w.turns[t].phase.Dropped?
    ensures AtMostOneAlive(v, s) && (Safe(w, s) ==> Safe(v, s))
  {
    forall u: nat ensures AliveOn(v, u, s) <==> AliveOn(w, u, s) && u != t {}
    forall u: nat ensures DroppedOn(v, u, s) <==> DroppedOn(w, u, s) && u != t {}
    if Safe(w, s) {
      if s == w.turns[t].session {
        assert AliveOn(w, t, s) || DroppedOn(w, t, s);
        assert Healthy(v, s);
      } else if !Healthy(w, s) {
        var d: nat :| Blocked(w, s, d);
        assert Blocked(v, s, d);
      }
    }
  }

  lemma TaskKeepsSafe(w: World, step: Step, t: nat)
    requires Basic(w) && AllSafe(w) && t < |w.turns|
    ensures AllSafe(TaskStep(w, step, t))
  {
    var v, p := TaskStep(w, step, t), w.turns[t].phase;
    TaskShape(w, step, t);
    if (step.Leave? && p.Leaving?) || (step.Wake? && p.Dropped?) {
      assert Clears(w, v, t);
      forall s | 0 <= s < |v.sessions| ensures AtMostOneAlive(v, s) && (Safe(w, s) ==> Safe(v, s)) {
        ClearsKeepsSafe(w, v, t, s);
      }
    } else {
      TaskMidway(w, step, t);
      ShrinksKeepsAllSafe(w, v);
    }
  }

  lemma TaskMidway(w: World, step: Step, t: nat)
    requires t < |w.turns|
    requires !(step.Leave? && w.turns[t].phase.Leaving?) && !(step.Wake? && w.turns[t].phase.Dropped?)
    ensures Shrinks(w, TaskStep(w, step, t))
  {
    TaskShape(w, step, t);
  }

  // A prompt claims the free slot of a registered session.
  lemma ClaimKeepsSafe(w: World, v: World, c: nat, s: nat)
    requires Claims(w, v, c) && AtMostOneAlive(w, s) && (s == c ==> Safe(w, s))
    ensures AtMostOneAlive(v, s) && (Safe(w, s) ==> Safe(v, s))
  {
    forall u: nat ensures AliveOn(v, u, s) <==> AliveOn(w, u, s) || (u == |w.turns| && s == c) {}
    forall u: nat ensures DroppedOn(v, u, s) <==> DroppedOn(w, u, s) {}
    if s == c {
      assert Healthy(w, s) && NoneAlive(w, s);
    } else if Safe(w, s) && !Healthy(w, s) {
      var d: nat :| Blocked(w, s, d);
      assert Blocked(v, s, d);
    }
  }

  lemma OpenKeepsSafe(w: World, v: World, sid: string, s: nat)
    requires Basic(w) && Opens(w, v, sid) && s <= |w.sessions| && (s < |w.sessions| ==> AtMostOneAlive(w, s))
    ensures AtMostOneAlive(v, s) && (s == |w.sessions| || Safe(w, s) ==> Safe(v, s))
  {
    forall u: nat ensures AliveOn(v, u, s) <==> AliveOn(w, u, s) {}
    forall u: nat ensures DroppedOn(v, u, s) <==> DroppedOn(w, u, s) {}
    if s < |w.sessions| && Safe(w, s) && !Healthy(w, s) {
      var d: nat :| Blocked(w, s, d);
      assert Blocked(v, s, d);
    }
  }

  lemma HandleKeepsSafe(w: World, action: Action)
    requires Basic(w) && AllSafe(w) && w.reader.Busy?
    ensures AllSafe(HandleStep(w, action))
  {
    var v := HandleStep(w, action);
    if v != w {
      HandleShape(w, action);
      if action.Prompt? && action.sid in w.directory && Claims(w, v, w.directory[action.sid]) {
        forall s | 0 <= s < |v.sessions| ensures AtMostOneAlive(v, s) && (Safe(w, s) ==> Safe(v, s)) {
          ClaimKeepsSafe(w, v, w.directory[action.sid], s);
        }
      } else if action.Open? {
        forall s | 0 <= s < |v.sessions|
          ensures AtMostOneAlive(v, s) && (s == |w.sessions| || Safe(w, s) ==> Safe(v, s))
        {
          OpenKeepsSafe(w, v, action.sid, s);
        }
      } else {
        assert Shrinks(w, v);
        ShrinksKeepsAllSafe(w, v);
      }
    }
  }

  lemma ProceedKeepsSafe(w: World)
    requires Basic(w) && AllSafe(w) && w.reader.Busy?
    ensures AllSafe(ProceedStep(w))
  {
    if w.reader.work.ConvertingPrompt? {
      ConvertShape(w);
    } else if Closing(w.reader.work) {
      CloseShape(w);
    } else {
      ProceedShape(w);
    }
    ShrinksKeepsAllSafe(w, ProceedStep(w));
  }

  lemma TimeOutKeepsSafe(w: World)
    requires Basic(w) && AllSafe(w) && w.reader.Busy? && w.reader.work.ClosingWait?
    ensures AllSafe(TimeOutStep(w))
  {
    var v, c := TimeOutStep(w), w.reader.work.session;
    TimeOutShape(w);
    forall s | 0 <= s < |v.sessions| ensures AtMostOneAlive(v, s) && (s != c && Safe(w, s) ==> Safe(v, s)) {
      TimeOutElsewhere(w, v, c, s);
    }
  }

  lemma TimeOutElsewhere(w: World, v: World, c: nat, s: nat)
    requires v.turns == w.turns && v.sessions == SetSlot(w, c, Free).sessions && AtMostOneAlive(w, s)
    ensures AtMostOneAlive(v, s) && (s != c && Safe(w, s) ==> Safe(v, s))
  {
    forall u: nat ensures AliveOn(v, u, s) <==> AliveOn(w, u, s) {}
    forall u: nat ensures DroppedOn(v, u, s) <==> DroppedOn(w, u, s) {}
    if s != c && Safe(w, s) && !Healthy(w, s) {
      var d: nat :| Blocked(w, s, d);
      assert Blocked(v, s, d);
    }
  }

  // Outcomes are resolved, and replies sent, without touching a session.
  lemma OutcomesKeepSafe(w: World, step: Step)
    requires Basic(w) && AllSafe(w) && w.reader.Busy? && !Withdraws(w, step) && (step.Resolve? || step.SendReply?)
    ensures AllSafe(ReaderStep(w, step))
  {
    assert SameSessions(w, ReaderStep(w, step));
    ShrinksKeepsAllSafe(w, ReaderStep(w, step));
  }

  lemma BusyKeepsSafe(w: World, step: Step)
    requires Basic(w) && AllSafe(w) && w.reader.Busy? && !Withdraws(w, step)
    ensures AllSafe(ReaderStep(w, step))
  {
    match step
    case Handle(action) => HandleKeepsSafe(w, action);
    case Proceed => ProceedKeepsSafe(w);
    case TimeOut => if w.reader.work.ClosingWait? { TimeOutKeepsSafe(w); }
    case Resolve => OutcomesKeepSafe(w, step);
    case SendReply => OutcomesKeepSafe(w, step);
    case _ =>
  }

  lemma ReaderKeepsSafe(w: World, step: Step)
    requires Basic(w) && AllSafe(w) && !Withdraws(w, step)
    ensures AllSafe(ReaderStep(w, step))
  {
    var v := ReaderStep(w, step);
    match w.reader
    case Ready => if step.Read? { ReadShape(w, step.line); ShrinksKeepsAllSafe(w, v); }
    case Starting(_, _) => if step.Start? { StartShape(w); ShrinksKeepsAllSafe(w, v); }
    case Busy(_, _, _, _, _, _, _) => BusyKeepsSafe(w, step);
  }

  lemma StepKeepsSafe(w: World, step: Step)
    requires Basic(w) && AllSafe(w) && !Withdraws(w, step)
    ensures AllSafe(Next(w, step))
  {
    if !IsTaskStep(step) {
      ReaderKeepsSafe(w, step);
    } else if step.t < |w.turns| {
      TaskKeepsSafe(w, step, step.t);
    }
  }

  lemma {:induction false} CalmKeepsSafe(w: World, steps: seq<Step>)
    requires Basic(w) && AllSafe(w) && Calm(w, steps)
    ensures AllSafe(Run(w, steps))
    decreases |steps|
  {
    if steps != [] {
      var front := steps[..|steps| - 1];
      CalmKeepsSafe(w, front);
      RunKeepsBasic(w, front);
      StepKeepsSafe(Run(w, front), steps[|steps| - 1]);
    }
  }

  lemma AllSafeMeansExclusive(w: World)
    requires Basic(w) && AllSafe(w)
    ensures Exclusive(w)
  {
    forall s: nat, t: nat, u: nat | LiveOn(w, t, s) && LiveOn(w, u, s) ensures t == u {
      assert AtMostOneAlive(w, s) && AliveOn(w, t, s) && AliveOn(w, u, s);
    }
  }

  // Without a prompt cancelled before its start, no session object ever has two
  // live tasks, forced closes included.
  lemma {:induction false} CalmRunsExclusive(steps: seq<Step>)
    requires Calm(INITIAL, steps)
    ensures Exclusive(Run(INITIAL, steps))
  {
    CalmKeepsSafe(INITIAL, steps);
    RunKeepsBasic(INITIAL, steps);
    AllSafeMeansExclusive(Run(INITIAL, steps));
  }
}
