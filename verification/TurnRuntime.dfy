/** The reader's own code as it runs when nothing interleaves: each method does
    what the source's function does, in its order, and is shown to be a run of the
    protocol's steps. */
module TurnRuntime {
  import opened Wrappers
  import opened RequestIds
  import opened Jsonrpc
  import opened Turns
  import U = UpdateMapper

  function Repeat(step: Step, n: nat): seq<Step> { seq(n, _ => step) }

  lemma RepeatOneMore(w: World, step: Step, n: nat)
    ensures Run(w, Repeat(step, n + 1)) == Next(Run(w, Repeat(step, n)), step)
  {
    assert Repeat(step, n + 1)[..n] == Repeat(step, n);
  }

  /** What the reader and the tasks share. */
  class Runtime {
    var sessions: seq<Session>
    var directory: map<string, nat>
    var turns: seq<Turn>
    var pending: map<RequestId, nat>
    var cancelled: set<nat>
    var nextChannel: nat
    var sink: seq<Frame>

    // The world, with the reader at a given point of its code.
    function View(reader: Reader, received: seq<Line>): World
      reads this
    {
      World(sessions, directory, turns, pending, cancelled, nextChannel, reader, sink, received)
    }

    constructor ()
      ensures View(Ready, []) == INITIAL
    {
      sessions, directory, turns, pending, cancelled, nextChannel, sink := [], map[], [], map[], {}, 0, [];
    }

    method SetTurnSlot(s: nat, slot: Slot, ghost reader: Reader, ghost received: seq<Line>)
      modifies this`sessions
      ensures View(reader, received) == SetSlot(old(View(reader, received)), s, slot)
    {
      if s < |sessions| {
        sessions := sessions[s := sessions[s].(slot := slot)];
      }
    }

    // `PendingPromptStart::cancel_before_start`
    method CancelBeforeStart(t: nat, ghost reader: Reader, ghost received: seq<Line>)
      modifies this`sessions, this`turns
      ensures View(reader, received) == Withdraw(old(View(reader, received)), t)
    {
      if t < |turns| && turns[t].phase.Paused? {
        SetTurnSlot(turns[t].session, Free, reader, received);
        turns := turns[t := turns[t].(phase := Dropped)];
      }
    }

    // `resolve_dispatch_outcome`, for an outcome whose request is out of the table
    // already if it is one of a batch.
    method ResolveDispatchOutcome(slip: Slip, answer: Answer, ghost busy: Reader, ghost received: seq<Line>)
      returns (result: Answer)
      requires Handled(busy) && |busy.results| < |busy.answers| == |busy.slips|
      requires busy.slips[|busy.results|] == slip && busy.answers[|busy.results|] == answer
      requires busy.batch ==> slip.id !in pending
      modifies this`sessions, this`turns
      ensures View(busy.(results := busy.results + [result]), received) == ResolveStep(old(View(busy, received)))
    {
      ghost var w := View(busy, received);
      assert busy.batch ==> pending - {slip.id} == pending;
      result := answer;
      if answer.Accepted? && slip.channel in cancelled {
        assert WithdrawsNext(w);
        CancelBeforeStart(answer.turn, busy, received);
        result := Withdrawn(answer.turn);
      }
    }

    // The loop of `handle_batch` over the outcomes of its requests.
    method ResolveOutcomes(slips: seq<Slip>, answers: seq<Answer>, ghost busy: Reader, ghost received: seq<Line>)
      returns (results: seq<Answer>, starts: seq<nat>)
      requires |slips| == |answers|
      requires Handled(busy) && busy.batch && busy.slips == slips && busy.answers == answers && busy.results == []
      modifies this`sessions, this`turns, this`pending
      ensures starts == StartsOf(results) && |results| == |answers|
      ensures View(busy.(results := results), received) == Run(old(View(busy, received)), Repeat(Resolve, |answers|))
    {
      results, starts := [], [];
      ghost var w := View(busy, received);
      for i := 0 to |answers|
        invariant |results| == i && starts == StartsOf(results)
        invariant View(busy.(results := results), received) == Run(w, Repeat(Resolve, i))
      {
        RepeatOneMore(w, Resolve, i);
        ghost var reader := busy.(results := results);
        ResolveForgets(View(reader, received));
        pending := pending - {slips[i].id};
        var result := ResolveDispatchOutcome(slips[i], answers[i], reader, received);
        StartsOneMore(results, result);
        results := results + [result];
        if result.Accepted? {
          starts := starts + [result.turn];
        }
      }
    }

    // `start_tx.send`: only a task still waiting for it hears the signal.
    method SendStart(t: nat, ghost reader: Reader, ghost received: seq<Line>)
      modifies this`turns
      ensures View(reader, received) == Signal(old(View(reader, received)), t)
    {
      if t < |turns| && turns[t].phase.Paused? {
        turns := turns[t := turns[t].(phase := Signalled)];
      }
    }

    // Release the accepted tasks, in order.
    method ReleaseStarts(starts: seq<nat>, forget: Option<RequestId>, ghost received: seq<Line>)
      modifies this`turns, this`pending
      ensures View(Ready, received) ==
        Run(old(View(Starting(starts, forget), received)), Repeat(Start, |starts| + 1))
    {
      ghost var w := View(Starting(starts, forget), received);
      assert starts[0..] == starts;
      for i := 0 to |starts|
        invariant View(Starting(starts[i..], forget), received) == Run(w, Repeat(Start, i))
      {
        RepeatOneMore(w, Start, i);
        assert starts[i..][1..] == starts[i + 1..];
        StartNext(View(Starting(starts[i..], forget), received));
        SendStart(starts[i], Starting(starts[i + 1..], forget), received);
      }
      RepeatOneMore(w, Start, |starts|);
      if forget.Some? {
        pending := pending - {forget.value};
      }
    }

    // The end of `handle_batch`: resolve, answer with one frame if anything is
    // owed, and only then release the tasks.
    method FinishBatch(entries: seq<Entry>, slips: seq<Slip>, answers: seq<Answer>,
                       ghost busy: Reader, ghost received: seq<Line>)
      returns (ghost releases: nat)
      requires |slips| == |answers| == |RequestIdsOf(entries)|
      requires Handled(busy) && busy.batch && busy.entries == entries && busy.slips == slips
      requires busy.answers == answers && busy.results == []
      modifies this
      ensures View(Ready, received) ==
        Run(old(View(busy, received)), Repeat(Resolve, |answers|) + [SendReply] + Repeat(Start, releases))
    {
      ghost var w := View(busy, received);
      var results, starts := ResolveOutcomes(slips, answers, busy, received);
      ghost var resolved := View(busy.(results := results), received);
      var replies := Replies(entries, ResultsOf(results), 0);
      BatchPairing(entries, ResultsOf(results), 0);
      releases := 0;
      Assembled(w, resolved, |answers|);
      if replies != [] {
        sink := sink + [Answers(true, replies, results)];
        assert View(Starting(starts, None), received) == Next(resolved, SendReply);
        ReleaseStarts(starts, None, received);
        releases := |starts| + 1;
      } else {
        assert View(Ready, received) == Next(resolved, SendReply);
      }
      RunAppend(w, Repeat(Resolve, |answers|) + [SendReply], Repeat(Start, releases));
    }

    // `send_dispatch_outcome`, and the removal of the request afterwards: a
    // single request's answer is sent before its task is released.
    method SendDispatchOutcome(entry: Entry, slip: Slip, answer: Answer, ghost busy: Reader, ghost received: seq<Line>)
      returns (ghost releases: nat)
      requires entry.Request? && slip.id == entry.id
      requires Handled(busy) && !busy.batch && busy.entries == [entry] && busy.slips == [slip]
      requires busy.answers == [answer] && busy.results == []
      modifies this
      ensures View(Ready, received) ==
        Run(old(View(busy, received)), [Resolve, SendReply] + Repeat(Start, releases))
    {
      ghost var w := View(busy, received);
      var result := ResolveDispatchOutcome(slip, answer, busy, received);
      assert [] + [result] == [result];
      ghost var resolved := View(busy.(results := [result]), received);
      SingleSent(w, resolved, entry, result);
      var starts := if result.Accepted? then [result.turn] else [];
      releases := |starts| + 1;
      RunAppend(w, [Resolve, SendReply], Repeat(Start, releases));
      sink := sink + [Answers(false, [Jsonrpc.Reply(entry.id, ResultOf(result))], [result])];
      assert View(Starting(starts, Some(entry.id)), received) == Run(w, [Resolve, SendReply]);
      ReleaseStarts(starts, Some(entry.id), received);
    }

    // A request's cancel channel goes into the table before anything else.
    method RegisterRequest(at: nat, id: RequestId, ghost busy: Reader, ghost received: seq<Line>) returns (slip: Slip)
      requires busy.Busy? && |busy.actions| == at + 1
      modifies this`pending, this`nextChannel
      ensures slip.id == id
      ensures View(busy.(slips := busy.slips + [slip]), received) == Registered(old(View(busy, received)), id)
    {
      slip := Slip(at, id, nextChannel);
      pending := pending[id := nextChannel];
      nextChannel := nextChannel + 1;
    }

    // `handle_session_prompt`: claim the slot, convert the prompt, and only then
    // spawn the paused task. A failed conversion leaves by the early return, with
    // the slot still claimed.
    method HandleSessionPrompt(sid: string, convertible: bool, ghost busy: Reader, ghost received: seq<Line>)
      returns (answer: Answer)
      requires busy.Busy?
      modifies this`sessions, this`turns
      ensures answer.Plain? ==> answer.result.Err?
      ensures View(busy.(work := NoWork, answers := busy.answers + [answer]), received) ==
        var claimed := Claim(old(View(busy, received)), sid, convertible);
        if claimed.reader.work.ConvertingPrompt? then Convert(claimed) else claimed
    {
      if sid !in directory {
        return Plain(Err(NOT_FOUND));
      }
      var s, t := directory[sid], |turns|;
      if s < |sessions| && sessions[s].slot.Claimed? {
        return Plain(Err(BUSY));
      }
      ghost var working := busy.(work := ConvertingPrompt(t, convertible));
      SetTurnSlot(s, Claimed(t, false), working, received);
      turns := turns + [Turn(s, Converting, U.FRESH, 0)];
      if !convertible {
        turns := turns[t := turns[t].(phase := Unconverted)];
        return Plain(Err(BAD_PROMPT));
      }
      turns := turns[t := turns[t].(phase := Paused)];
      return Accepted(t);
    }

    // `create_session`, and the updates sent before the response: the commands,
    // or the replayed transcript.
    method OpenSession(sid: string, structuredBrief: bool, updates: seq<U.Update>, result: Result<Json, Error>,
                       ghost busy: Reader, ghost received: seq<Line>)
      requires busy.Busy?
      modifies this`sessions, this`directory, this`sink
      ensures var created := Opened(old(View(busy, received)), Open(sid, structuredBrief, updates, result));
        View(busy.(work := NoWork, answers := busy.answers + [Plain(result)]), received) ==
        Run(created, Repeat(Proceed, |updates| + 1))
    {
      ghost var created := Opened(View(busy, received), Open(sid, structuredBrief, updates, result));
      directory := directory[sid := |sessions|];
      sessions := sessions + [Session(sid, structuredBrief, Free, false)];
      assert updates[0..] == updates;
      for i := 0 to |updates|
        invariant View(busy.(work := Publishing(sid, updates[i..], result)), received) ==
          Run(created, Repeat(Proceed, i))
      {
        RepeatOneMore(created, Proceed, i);
        assert updates[i..][1..] == updates[i + 1..];
        PublishNext(View(busy.(work := Publishing(sid, updates[i..], result)), received));
        sink := sink + [Notice(None, sid, updates[i])];
      }
      RepeatOneMore(created, Proceed, |updates|);
      PublishNext(View(busy.(work := Publishing(sid, [], result)), received));
    }

    // `close_session` up to its wait: mark the turn, then abort the engine.
    method BeginClose(s: nat, archive: Option<Result<Json, Error>>, ghost busy: Reader, ghost received: seq<Line>)
      returns (hadTurn: bool)
      requires busy.Busy? && s < |sessions|
      modifies this`sessions
      ensures hadTurn == old(sessions[s].slot.Claimed?)
      ensures View(busy.(work := if hadTurn then ClosingWait(s, archive) else ClosingRemove(s, archive)), received) ==
        CloseOn(Working(SetSlot(old(View(busy, received)), s, old(sessions[s].slot).Marked()),
                        ClosingAbort(s, archive, hadTurn)))
    {
      hadTurn := sessions[s].slot.Claimed?;
      SetTurnSlot(s, sessions[s].slot.Marked(), busy.(work := ClosingAbort(s, archive, hadTurn)), received);
      sessions := sessions[s := sessions[s].(aborted := true)];
    }

    method ForceIdle(s: nat, archive: Option<Result<Json, Error>>, ghost busy: Reader, ghost received: seq<Line>)
      requires busy.Busy? && busy.work == ClosingWait(s, archive) && s < |sessions|
      modifies this`sessions, this`sink
      ensures |sessions| == old(|sessions|) && sessions[s].sid == old(sessions[s].sid)
      ensures View(busy.(work := ClosingRemove(s, archive)), received) ==
        Next(Next(old(View(busy, received)), TimeOut), Proceed)
    {
      GaveUpNext(View(busy, received), s, archive);
      SetTurnSlot(s, Free, busy.(work := ClosingNotify(s, archive)), received);
      sink := sink + [Notice(None, sessions[s].sid, U.Idle(U.Cancelled))];
    }

    // Its end: if the wait gave up, clear the slot and tell the client, then
    // forget the session.
    method EndClose(s: nat, archive: Option<Result<Json, Error>>, gaveUp: bool, ghost busy: Reader,
        ghost received: seq<Line>)
      requires busy.Busy? && busy.work == ClosingWait(s, archive) && s < |sessions|
      requires !gaveUp ==> sessions[s].slot.Free?
      modifies this`sessions, this`directory, this`sink
      ensures View(busy.(work := NoWork, answers := busy.answers + [Plain(CloseResult(true, archive))]), received) ==
        Run(old(View(busy, received)), if gaveUp then [TimeOut, Proceed] + [Proceed] else [Proceed, Proceed])
    {
      ghost var w := View(busy, received);
      if gaveUp {
        RunTwo(w, TimeOut, Proceed);
        RunOneMore(w, [TimeOut, Proceed], Proceed);
        ForceIdle(s, archive, busy, received);
      } else {
        ObservedNext(w, s, archive);
        RunTwo(w, Proceed, Proceed);
      }
      RemoveNext(View(busy.(work := ClosingRemove(s, archive)), received), s, archive);
      directory := directory - {sessions[s].sid};
    }

    // `session/cancel`: mark the turn, if there is one, then abort the engine.
    method CancelSessionTurn(sid: string, ghost busy: Reader, ghost received: seq<Line>)
      requires busy.Busy? && busy.work.NoWork? && |busy.actions| < |busy.entries|
      requires busy.entries[|busy.actions|].Notification?
      modifies this`sessions
      ensures var w := old(View(busy, received)); var action := Turns.CancelSession(sid);
        View(busy.(actions := busy.actions + [action]), received) == Run(w, [Handle(action), Proceed])
    {
      ghost var w := View(busy, received);
      ghost var next := busy.(actions := busy.actions + [Turns.CancelSession(sid)]);
      CancelHandled(w, sid);
      if sid in directory {
        var s := directory[sid];
        var slot := if s < |sessions| then sessions[s].slot else Free;
        SetTurnSlot(s, slot.Marked(), next.(work := AbortingTurn(s)), received);
        if s < |sessions| {
          sessions := sessions[s := sessions[s].(aborted := true)];
        }
      }
      RunTwo(w, Handle(Turns.CancelSession(sid)), Proceed);
    }
  }

  lemma StartNext(w: World)
    requires w.reader.Starting? && w.reader.starts != []
    ensures Next(w, Start) == Signal(w.(reader := w.reader.(starts := w.reader.starts[1..])), w.reader.starts[0])
  {
  }

  lemma PublishNext(w: World)
    requires w.reader.Busy? && w.reader.work.Publishing?
    ensures Next(w, Proceed) == Publish(w)
  {
  }

  lemma ObservedNext(w: World, s: nat, archive: Option<Result<Json, Error>>)
    requires w.reader.Busy? && w.reader.work == ClosingWait(s, archive) && SlotOf(w, s).Free?
    ensures Next(w, Proceed) == Working(w, ClosingRemove(s, archive))
  {
  }

  lemma GaveUpNext(w: World, s: nat, archive: Option<Result<Json, Error>>)
    requires w.reader.Busy? && w.reader.work == ClosingWait(s, archive) && s < |w.sessions|
    ensures Next(Next(w, TimeOut), Proceed) ==
      Working(Sent(SetSlot(w, s, Free), Notice(None, w.sessions[s].sid, U.Idle(U.Cancelled))),
        ClosingRemove(s, archive))
  {
    assert Next(w, TimeOut) == Working(SetSlot(w, s, Free), ClosingNotify(s, archive));
  }

  lemma RemoveNext(w: World, s: nat, archive: Option<Result<Json, Error>>)
    requires w.reader.Busy? && w.reader.work == ClosingRemove(s, archive) && s < |w.sessions|
    ensures Next(w, Proceed) ==
      Answered(w, Plain(CloseResult(true, archive))).(directory := w.directory - {w.sessions[s].sid})
  {
  }

  // Resolving a batch's outcome takes its request out of the table, if it is
  // still there.
  lemma ResolveForgets(w: World)
    requires Handled(w.reader) && w.reader.batch && |w.reader.results| < |w.reader.answers| == |w.reader.slips|
    ensures var id := w.reader.slips[|w.reader.results|].id;
      Next(w, Resolve) == ResolveStep(w.(pending := w.pending - {id}))
  {
    var id := w.reader.slips[|w.reader.results|].id;
    assert w.pending - {id} - {id} == w.pending - {id};
  }

  // The marked turn's session, once the reader has seen `session/cancel`.
  lemma CancelHandled(w: World, sid: string)
    requires w.reader.Busy? && w.reader.work.NoWork? && |w.reader.actions| < |w.reader.entries|
    requires w.reader.entries[|w.reader.actions|].Notification?
    ensures Next(w, Handle(CancelSession(sid))) ==
      var next := w.(reader := w.reader.(actions := w.reader.actions + [CancelSession(sid)]));
      if sid in w.directory then
        var s := w.directory[sid];
        SetSlot(next, s, SlotOf(w, s).Marked()).(reader := next.reader.(work := AbortingTurn(s)))
      else next
  {
  }

  lemma Assembled(w: World, resolved: World, n: nat)
    requires resolved == Run(w, Repeat(Resolve, n))
    ensures Run(w, Repeat(Resolve, n) + [SendReply]) == Next(resolved, SendReply)
  {
    assert (Repeat(Resolve, n) + [SendReply])[..n] == Repeat(Resolve, n);
  }

  lemma StartsOneMore(answers: seq<Answer>, answer: Answer)
    ensures StartsOf(answers + [answer]) == StartsOf(answers) + (if answer.Accepted? then [answer.turn] else [])
  {
    assert (answers + [answer])[..|answers|] == answers;
  }

  lemma SingleReplied(w: World, entry: Entry, result: Answer)
    requires entry.Request? && Handled(w.reader) && !w.reader.batch && w.reader.entries == [entry]
    requires w.reader.results == [result] && |w.reader.answers| == 1
    ensures Next(w, SendReply) ==
      Sent(w, Answers(false, [Jsonrpc.Reply(entry.id, ResultOf(result))], [result])).(
      reader := Starting(if result.Accepted? then [result.turn] else [], Some(entry.id)))
  {
    assert [entry][1..] == [] && [result][..0] == [];
    assert StartsOf([result]) == if result.Accepted? then [result.turn] else [];
    assert Replies([entry], ResultsOf([result]), 0) == [Jsonrpc.Reply(entry.id, ResultOf(result))];
  }

  // A request resolved and then answered on its own.
  lemma SingleSent(w: World, v: World, entry: Entry, result: Answer)
    requires v == Next(w, Resolve)
    requires entry.Request? && Handled(v.reader) && !v.reader.batch && v.reader.entries == [entry]
    requires v.reader.results == [result] && |v.reader.answers| == 1
    ensures Run(w, [Resolve, SendReply]) ==
      Sent(v, Answers(false, [Jsonrpc.Reply(entry.id, ResultOf(result))], [result])).(
      reader := Starting(if result.Accepted? then [result.turn] else [], Some(entry.id)))
  {
    RunTwo(w, Resolve, SendReply);
    SingleReplied(v, entry, result);
  }
}
