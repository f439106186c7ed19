/** When exclusivity breaks: from any unsafe session two live tasks are a few
    steps away, so `TurnExclusivity.Safe` is exact; and a run that gets there. */
module TurnBreaks {
  import opened Wrappers
  import opened RequestIds
  import opened Jsonrpc
  import opened Turns
  import opened TurnExclusivity
  import TurnAnswers
  import U = UpdateMapper

  lemma {:induction false} CalmAppend(w: World, a: seq<Step>, b: seq<Step>)
    ensures Calm(w, a + b) <==> Calm(w, a) && Calm(Run(w, a), b)
    decreases |b|
  {
    if b == [] {
      assert a + b == a;
    } else {
      var front := b[..|b| - 1];
      assert (a + b)[..|a + b| - 1] == a + front;
      CalmAppend(w, a, front);
      RunAppend(w, a, front);
    }
  }

  lemma OneMore(w: World, steps: seq<Step>, step: Step)
    requires Calm(w, steps) && !Withdraws(Run(w, steps), step)
    ensures Calm(w, steps + [step]) && Run(w, steps + [step]) == Next(Run(w, steps), step)
  {
    assert (steps + [step])[..|steps|] == steps;
  }

  // Steps no close gives up at, and steps that open no session either.
  predicate Patient(steps: seq<Step>) { forall i :: 0 <= i < |steps| ==> !steps[i].TimeOut? }

  predicate Ordinary(step: Step) { !step.TimeOut? && !(step.Handle? && step.action.Open?) }

  predicate AllOrdinary(steps: seq<Step>) { forall i :: 0 <= i < |steps| ==> Ordinary(steps[i]) }

  lemma {:induction false} PatientIsUnforced(w: World, steps: seq<Step>)
    requires Patient(steps)
    ensures Unforced(w, steps)
    decreases |steps|
  {
    if steps != [] { PatientIsUnforced(w, steps[..|steps| - 1]); }
  }

  // ---------------------------------------------------------- a prompt accepted

  const PROMPT: Entry := Request(Null, "session/prompt", None)

  const PROMPT_LINE: Line := Parsed(JObj(map["id" := JNull, "method" := JStr("session/prompt")]))

  lemma PromptParses()
    ensures FrameOf(PROMPT_LINE) == Ok(Some(Single(PROMPT)))
  {
  }

  ghost predicate FreshChannels(w: World) { forall c :: c in w.cancelled ==> c < w.nextChannel }

  // The reader after the prompt's acceptance is resolved.
  ghost predicate AboutToReply(w: World, v: World, s: nat) {
    && s < |w.sessions| && FreshChannels(v)
    && v.directory == w.directory
    && v.sessions == w.sessions[s := w.sessions[s].(slot := Claimed(|w.turns|, false))]
    && v.turns == w.turns + [Turn(s, Paused, U.FRESH, 0)]
    && v.reader.Busy? && !v.reader.batch && v.reader.entries == [PROMPT] && Handled(v.reader)
    && v.reader.answers == v.reader.results == [Accepted(|w.turns|)]
  }

  // The prompt read and its slot claimed.
  ghost predicate Converts(w: World, v: World, s: nat) {
    && s < |w.sessions| && FreshChannels(v)
    && v.directory == w.directory
    && v.sessions == w.sessions[s := w.sessions[s].(slot := Claimed(|w.turns|, false))]
    && v.turns == w.turns + [Turn(s, Converting, U.FRESH, 0)]
    && v.nextChannel == w.nextChannel + 1 && w.nextChannel !in v.cancelled
    && v.reader.Busy? && v.reader == Busy(false, [PROMPT], v.reader.actions, [Slip(0, Null, w.nextChannel)],
                                          ConvertingPrompt(|w.turns|, true), [], [])
    && |v.reader.actions| == 1
  }

  // The reader took a line of these entries.
  predicate Took(w: World, v: World, batch: bool, entries: seq<Entry>) {
    v == w.(received := v.received, reader := Busy(batch, entries, [], [], NoWork, [], []))
  }

  lemma LineTaken(w: World, line: Line, entry: Entry)
    requires w.reader.Ready? && FrameOf(line) == Ok(Some(Single(entry)))
    ensures Took(w, Next(w, Read(line)), false, [entry])
  {
  }

  lemma BatchTaken(w: World, line: Line, entries: seq<Entry>)
    requires w.reader.Ready? && FrameOf(line) == Ok(Some(Batch(entries)))
    ensures Took(w, Next(w, Read(line)), true, entries)
  {
  }

  lemma PromptHandled(w: World, v: World, sid: string)
    requires Registry(w) && FreshChannels(w) && Took(w, v, false, [PROMPT])
    requires sid in w.directory && SlotOf(w, w.directory[sid]).Free?
    ensures Converts(w, Next(v, Handle(Prompt(sid, true))), w.directory[sid])
  {
    assert [] + [Slip(0, Null, w.nextChannel)] == [Slip(0, Null, w.nextChannel)];
  }

  lemma PromptRead(w: World, sid: string)
    requires Registry(w) && FreshChannels(w) && w.reader.Ready?
    requires sid in w.directory && SlotOf(w, w.directory[sid]).Free?
    ensures Converts(w, Next(Next(w, Read(PROMPT_LINE)), Handle(Prompt(sid, true))), w.directory[sid])
  {
    PromptParses();
    LineTaken(w, PROMPT_LINE, PROMPT);
    PromptHandled(w, Next(w, Read(PROMPT_LINE)), sid);
  }

  lemma PromptConverted(w: World, v: World, s: nat)
    requires Converts(w, v, s)
    ensures AboutToReply(w, Next(Next(v, Proceed), Resolve), s)
  {
    var t := |w.turns|;
    var a := Next(v, Proceed);
    assert [] + [Accepted(t)] == [Accepted(t)];
    assert a.turns == w.turns + [Turn(s, Paused, U.FRESH, 0)];
    assert a.reader == v.reader.(work := NoWork, answers := [Accepted(t)]);
  }

  lemma PromptResolved(w: World, sid: string) returns (steps: seq<Step>)
    requires Registry(w) && FreshChannels(w) && w.reader.Ready?
    requires sid in w.directory && SlotOf(w, w.directory[sid]).Free?
    ensures AllOrdinary(steps)
    ensures Calm(w, steps) && AboutToReply(w, Run(w, steps), w.directory[sid])
  {
    var first := PromptConverting(w, sid);
    ConvertsCalmly(w, Run(w, first), w.directory[sid]);
    RunAppend(w, first, [Proceed, Resolve]);
    CalmAppend(w, first, [Proceed, Resolve]);
    steps := first + [Proceed, Resolve];
  }

  lemma PromptConverting(w: World, sid: string) returns (steps: seq<Step>)
    requires Registry(w) && FreshChannels(w) && w.reader.Ready?
    requires sid in w.directory && SlotOf(w, w.directory[sid]).Free?
    ensures AllOrdinary(steps) && Calm(w, steps) && Converts(w, Run(w, steps), w.directory[sid])
  {
    var read, claim := Read(PROMPT_LINE), Handle(Prompt(sid, true));
    PromptRead(w, sid);
    RunTwo(w, read, claim);
    CalmTwo(w, read, claim);
    steps := [read, claim];
  }

  lemma CalmTwo(w: World, a: Step, b: Step)
    ensures Calm(w, [a, b]) <==> !Withdraws(w, a) && !Withdraws(Next(w, a), b)
  {
    RunOneMore(w, [], a);
    assert [] + [a] == [a] && [a, b][..1] == [a] && [a][..0] == [];
    assert Calm(w, [a]) <==> !Withdraws(w, a);
  }

  // Nothing can have cancelled a request under the channel it just got.
  lemma ConvertedUncancelled(w: World, v: World, s: nat)
    requires Converts(w, v, s)
    ensures !Withdraws(Next(v, Proceed), Resolve)
  {
    var a := Next(v, Proceed);
    assert a.cancelled == v.cancelled;
    assert a.reader.slips == [Slip(0, Null, w.nextChannel)] && a.reader.results == [];
  }

  lemma ConvertsCalmly(w: World, v: World, s: nat)
    requires Converts(w, v, s)
    ensures Calm(v, [Proceed, Resolve]) && AboutToReply(w, Run(v, [Proceed, Resolve]), s)
  {
    PromptConverted(w, v, s);
    ConvertedUncancelled(w, v, s);
    RunTwo(v, Proceed, Resolve);
    CalmTwo(v, Proceed, Resolve);
  }

  // A prompt was accepted and its task released.
  ghost predicate Accepts(w: World, v: World, s: nat) {
    && s < |w.sessions| && FreshChannels(v) && v.reader.Ready?
    && v.directory == w.directory
    && v.sessions == w.sessions[s := w.sessions[s].(slot := Claimed(|w.turns|, false))]
    && v.turns == w.turns + [Turn(s, Signalled, U.FRESH, 0)]
  }

  lemma PromptAnswered(w: World, v: World, s: nat)
    requires AboutToReply(w, v, s)
    ensures Next(v, SendReply) ==
      Sent(v, Answers(false, [Jsonrpc.Reply(Null, Ok(OK_RESPONSE))], [Accepted(|w.turns|)])).(
      reader := Starting([|w.turns|], Some(Null)))
  {
    var t := |w.turns|;
    assert Replies([PROMPT], ResultsOf([Accepted(t)]), 0) == [Jsonrpc.Reply(Null, Ok(OK_RESPONSE))] by {
      assert PROMPT == [PROMPT][0] && [PROMPT][1..] == [];
    }
    assert StartsOf([Accepted(t)]) == [t] by { assert [Accepted(t)][..0] == []; }
  }

  lemma PromptReleased(w: World, v: World, s: nat)
    requires s < |w.sessions| && FreshChannels(v) && v.reader == Starting([|w.turns|], Some(Null))
    requires v.directory == w.directory && v.turns == w.turns + [Turn(s, Paused, U.FRESH, 0)]
    requires v.sessions == w.sessions[s := w.sessions[s].(slot := Claimed(|w.turns|, false))]
    ensures Accepts(w, Next(Next(v, Start), Start), s)
  {
    var a := Next(v, Start);
    assert a.reader == Starting([], Some(Null)) && a.turns == w.turns + [Turn(s, Signalled, U.FRESH, 0)];
  }

  lemma PromptReplied(w: World, v: World, s: nat)
    requires AboutToReply(w, v, s)
    ensures Calm(v, [SendReply, Start, Start]) && Accepts(w, Run(v, [SendReply, Start, Start]), s)
  {
    PromptAnswered(w, v, s);
    RunTwo(v, SendReply, Start);
    CalmTwo(v, SendReply, Start);
    PromptReleased(w, Next(v, SendReply), s);
    OneMore(v, [SendReply, Start], Start);
    assert [SendReply, Start] + [Start] == [SendReply, Start, Start];
  }

  lemma PromptAccepted(w: World, sid: string) returns (steps: seq<Step>)
    requires Registry(w) && FreshChannels(w) && w.reader.Ready?
    requires sid in w.directory && SlotOf(w, w.directory[sid]).Free?
    ensures AllOrdinary(steps)
    ensures Calm(w, steps) && Accepts(w, Run(w, steps), w.directory[sid])
  {
    var front := PromptResolved(w, sid);
    PromptReplied(w, Run(w, front), w.directory[sid]);
    RunAppend(w, front, [SendReply, Start, Start]);
    CalmAppend(w, front, [SendReply, Start, Start]);
    steps := front + [SendReply, Start, Start];
  }

  // ------------------------------------------------------------------- breaking

  // A free slot beside an unfinished task: one more prompt.
  lemma FreeBesideLive(w: World, sid: string, t: nat) returns (steps: seq<Step>)
    requires Registry(w) && FreshChannels(w) && w.reader.Ready? && sid in w.directory
    requires SlotOf(w, w.directory[sid]).Free? && LiveOn(w, t, w.directory[sid])
    ensures AllOrdinary(steps)
    ensures Calm(w, steps) && !Exclusive(Run(w, steps))
  {
    steps := PromptAccepted(w, sid);
    var v := Run(w, steps);
    assert LiveOn(v, t, w.directory[sid]) && LiveOn(v, |w.turns|, w.directory[sid]);
  }

  // The cancelled task wakes and clears the slot.
  lemma DroppedWakes(w: World, d: nat, s: nat)
    requires Registry(w) && DroppedOn(w, d, s) && s < |w.sessions|
    ensures var v := Run(w, [Wake(d)]);
      && Calm(w, [Wake(d)]) && SlotOf(v, s).Free? && |v.sessions| == |w.sessions|
      && v.directory == w.directory && v.reader == w.reader && v.nextChannel == w.nextChannel
        && v.cancelled == w.cancelled
      && v.turns == w.turns[d := w.turns[d].(phase := Done(false))]
      && (forall c :: 0 <= c < |w.sessions| ==> v.sessions[c].sid == w.sessions[c].sid)
  {
    OneMore(w, [], Wake(d));
    assert [] + [Wake(d)] == [Wake(d)];
  }

  // A task still running when the cancelled one wakes.
  lemma DroppedBesideLive(w: World, sid: string, d: nat, t: nat) returns (steps: seq<Step>)
    requires Registry(w) && FreshChannels(w) && w.reader.Ready? && sid in w.directory
    requires DroppedOn(w, d, w.directory[sid]) && LiveOn(w, t, w.directory[sid])
    ensures AllOrdinary(steps)
    ensures Calm(w, steps) && !Exclusive(Run(w, steps))
  {
    DroppedWakes(w, d, w.directory[sid]);
    var rest := FreeBesideLive(Run(w, [Wake(d)]), sid, t);
    RunAppend(w, [Wake(d)], rest);
    CalmAppend(w, [Wake(d)], rest);
    steps := [Wake(d)] + rest;
  }

  // A free slot and a cancelled task still to wake: the next prompt's task is
  // still running when it does.
  lemma DroppedBesideFree(w: World, sid: string, d: nat) returns (steps: seq<Step>)
    requires Registry(w) && FreshChannels(w) && w.reader.Ready? && sid in w.directory
    requires DroppedOn(w, d, w.directory[sid]) && SlotOf(w, w.directory[sid]).Free?
    ensures AllOrdinary(steps)
    ensures Calm(w, steps) && !Exclusive(Run(w, steps))
  {
    var first := PromptAccepted(w, sid);
    var v := Run(w, first);
    assert Registry(v) && DroppedOn(v, d, w.directory[sid]) && LiveOn(v, |w.turns|, w.directory[sid]);
    var rest := DroppedBesideLive(v, sid, d, |w.turns|);
    RunAppend(w, first, rest);
    CalmAppend(w, first, rest);
    steps := first + rest;
  }

  // Two cancelled tasks still to wake: the first frees the slot.
  lemma DroppedTwice(w: World, sid: string, d: nat, e: nat) returns (steps: seq<Step>)
    requires Registry(w) && FreshChannels(w) && w.reader.Ready? && sid in w.directory
    requires DroppedOn(w, d, w.directory[sid]) && DroppedOn(w, e, w.directory[sid]) && d != e
    ensures AllOrdinary(steps)
    ensures Calm(w, steps) && !Exclusive(Run(w, steps))
  {
    DroppedWakes(w, d, w.directory[sid]);
    var rest := DroppedBesideFree(Run(w, [Wake(d)]), sid, e);
    RunAppend(w, [Wake(d)], rest);
    CalmAppend(w, [Wake(d)], rest);
    steps := [Wake(d)] + rest;
  }

  lemma AliveIsLive(w: World, t: nat, s: nat)
    requires Basic(w) && w.reader.Ready? && AliveOn(w, t, s)
    ensures LiveOn(w, t, s)
  {
  }

  lemma {:induction false} UnsafeBreaks(w: World, sid: string) returns (steps: seq<Step>)
    requires Basic(w) && FreshChannels(w) && w.reader.Ready? && sid in w.directory
    requires Exclusive(w) && !Safe(w, w.directory[sid])
    ensures AllOrdinary(steps)
    ensures Calm(w, steps) && !Exclusive(Run(w, steps))
  {
    var s := w.directory[sid];
    forall t: nat | AliveOn(w, t, s) ensures LiveOn(w, t, s) { AliveIsLive(w, t, s); }
    assert AtMostOneAlive(w, s);
    if t: nat :| LiveOn(w, t, s) {
      if d: nat :| DroppedOn(w, d, s) {
        steps := DroppedBesideLive(w, sid, d, t);
      } else {
        steps := FreeBesideLive(w, sid, t);
      }
    } else {
      assert NoneAlive(w, s);
      var d: nat :| DroppedOn(w, d, s);
      if SlotOf(w, s).Free? {
        steps := DroppedBesideFree(w, sid, d);
      } else {
        assert !Blocked(w, s, d);
        var e: nat :| DroppedOn(w, e, s) && e != d;
        steps := DroppedTwice(w, sid, d, e);
      }
    }
  }

  // From a quiet state reached by any run, every continuation without a further
  // cancel-before-start keeps each session to one live task exactly if every
  // registered session is safe.
  lemma {:induction false} ExclusiveExactlyWhenSafe(before: seq<Step>)
    requires var w := Run(INITIAL, before); w.reader.Ready? && Exclusive(w)
    ensures var w := Run(INITIAL, before);
      (forall steps :: Calm(w, steps) ==> Exclusive(Run(w, steps))) <==>
      (forall sid :: sid in w.directory ==> Safe(w, w.directory[sid]))
  {
    var w := Run(INITIAL, before);
    RunKeepsBasic(INITIAL, before);
    TurnAnswers.RunKeepsChannels(before);
    if sid :| sid in w.directory && !Safe(w, w.directory[sid]) {
      var steps := UnsafeBreaks(w, sid);
    } else {
      forall s | 0 <= s < |w.sessions| ensures AtMostOneAlive(w, s) {
        forall t: nat | AliveOn(w, t, s) ensures LiveOn(w, t, s) { AliveIsLive(w, t, s); }
      }
      forall steps | Calm(w, steps) ensures Exclusive(Run(w, steps)) {
        CalmKeepsSafe(w, steps);
        RunKeepsBasic(w, steps);
        AllSafeMeansExclusive(Run(w, steps));
      }
    }
  }

  // --------------------------------------------------------- the double clear

  const OPEN: Entry := Request(Null, "session/new", None)

  const OPEN_LINE: Line := Parsed(JObj(map["id" := JNull, "method" := JStr("session/new")]))

  const CANCEL: Entry := Notification("$/cancel_request", Some(JObj(map["requestId" := JNull])))

  const PROMPT_THEN_CANCEL: Line := Parsed(JArr([
    JObj(map["id" := JNull, "method" := JStr("session/prompt")]),
    JObj(map["method" := JStr("$/cancel_request"), "params" := JObj(map["requestId" := JNull])])]))

  lemma OpenParses()
    ensures FrameOf(OPEN_LINE) == Ok(Some(Single(OPEN)))
  {
  }

  lemma ElementsParse()
    ensures ParseSingle(PROMPT_THEN_CANCEL.value.items[0]) == Ok(PROMPT)
    ensures ParseSingle(PROMPT_THEN_CANCEL.value.items[1]) == Ok(CANCEL)
  {
  }

  lemma BatchLineParses()
    ensures FrameOf(PROMPT_THEN_CANCEL) == Ok(Some(Batch([PROMPT, CANCEL])))
  {
    var items := PROMPT_THEN_CANCEL.value.items;
    ElementsParse();
    assert ParseAll(items[2..]) == Ok([]);
    assert items[1..][1..] == items[2..] && ParseAll(items[1..]) == Ok([CANCEL] + []);
    assert ParseAll(items) == Ok([PROMPT] + ([CANCEL] + []));
    assert [PROMPT] + ([CANCEL] + []) == [PROMPT, CANCEL];
  }

  // A new session: registered, free, and the reader ready again.
  ghost predicate SessionOpen(w: World) {
    && w.sessions == [Session("s", false, Free, false)] && w.directory == map["s" := 0] && w.turns == []
    && w.reader.Ready? && w.cancelled == {} && w.pending == map[]
  }

  // The session was registered and its reply is due.
  ghost predicate Opening(w: World, v: World, sid: string) {
    && v.sessions == w.sessions + [Session(sid, false, Free, false)] && v.directory == w.directory[sid := |w.sessions|]
    && v.turns == w.turns && v.cancelled == w.cancelled && v.pending == w.pending[Null := w.nextChannel]
    && v.nextChannel == w.nextChannel + 1
    && v.reader == Busy(false, [OPEN], [Open(sid, false, [], Ok(OK_RESPONSE))], [Slip(0, Null, w.nextChannel)],
                        Publishing(sid, [], Ok(OK_RESPONSE)), [], [])
  }

  // And sent: the reader is ready again.
  ghost predicate Reopened(w: World, v: World, sid: string) {
    && v.sessions == w.sessions + [Session(sid, false, Free, false)] && v.directory == w.directory[sid := |w.sessions|]
    && v.turns == w.turns && v.cancelled == w.cancelled && v.pending == w.pending - {Null}
    && v.nextChannel == w.nextChannel + 1 && v.reader.Ready?
  }

  lemma OpenHandled(w: World, v: World, sid: string)
    requires Took(w, v, false, [OPEN])
    ensures Opening(w, Next(v, Handle(Open(sid, false, [], Ok(OK_RESPONSE)))), sid)
  {
    assert [] + [Slip(0, Null, w.nextChannel)] == [Slip(0, Null, w.nextChannel)];
  }

  lemma OpenRead(w: World, sid: string)
    requires w.reader.Ready?
    ensures Opening(w, Next(Next(w, Read(OPEN_LINE)), Handle(Open(sid, false, [], Ok(OK_RESPONSE)))), sid)
  {
    OpenParses();
    LineTaken(w, OPEN_LINE, OPEN);
    OpenHandled(w, Next(w, Read(OPEN_LINE)), sid);
  }

  // The reader's last steps on it: resolve, reply, and nothing to start.
  ghost predicate OpenDue(w: World, v: World, sid: string) {
    && v.reader.Busy? && v.reader.work.NoWork? && v.reader.answers == v.reader.results == [Plain(Ok(OK_RESPONSE))]
    && var busy := v.reader.(work := Publishing(sid, [], Ok(OK_RESPONSE)), answers := [], results := []);
       Opening(w, v.(reader := busy), sid)
  }

  lemma OpenResolved(w: World, v: World, sid: string)
    requires Opening(w, v, sid)
    ensures Calm(v, [Proceed, Resolve]) && OpenDue(w, Run(v, [Proceed, Resolve]), sid)
  {
    var answer := Plain(Ok(OK_RESPONSE));
    assert [] + [answer] == [answer];
    var a := Next(v, Proceed);
    assert a == v.(reader := v.reader.(work := NoWork, answers := [answer]));
    RunTwo(v, Proceed, Resolve);
    CalmTwo(v, Proceed, Resolve);
    assert Next(a, Resolve) == a.(reader := a.reader.(results := [answer]));
  }

  lemma OpenAnswered(w: World, v: World, sid: string)
    requires OpenDue(w, v, sid)
    ensures Next(v, SendReply) ==
      Sent(v, Answers(false, [Jsonrpc.Reply(Null, Ok(OK_RESPONSE))], [Plain(Ok(OK_RESPONSE))])).(
      reader := Starting([], Some(Null)))
  {
    var answer := Plain(Ok(OK_RESPONSE));
    assert Replies([OPEN], ResultsOf([answer]), 0) == [Jsonrpc.Reply(Null, Ok(OK_RESPONSE))] by {
      assert OPEN == [OPEN][0] && [OPEN][1..] == [];
    }
    assert StartsOf([answer]) == [] by { assert [answer][..0] == []; }
  }

  lemma OpenReplied(w: World, v: World, sid: string)
    requires OpenDue(w, v, sid)
    ensures Calm(v, [SendReply, Start]) && Reopened(w, Run(v, [SendReply, Start]), sid)
  {
    OpenAnswered(w, v, sid);
    assert w.pending[Null := w.nextChannel] - {Null} == w.pending - {Null};
    RunTwo(v, SendReply, Start);
    CalmTwo(v, SendReply, Start);
  }

  lemma OpenFront(w: World, sid: string) returns (steps: seq<Step>)
    requires w.reader.Ready?
    ensures Patient(steps) && Calm(w, steps) && OpenDue(w, Run(w, steps), sid)
  {
    var open := Open(sid, false, [], Ok(OK_RESPONSE));
    var first := [Read(OPEN_LINE), Handle(open)];
    OpenRead(w, sid);
    RunTwo(w, first[0], first[1]);
    CalmTwo(w, first[0], first[1]);
    OpenResolved(w, Run(w, first), sid);
    RunAppend(w, first, [Proceed, Resolve]);
    CalmAppend(w, first, [Proceed, Resolve]);
    steps := first + [Proceed, Resolve];
  }

  // From any quiet state an id can be opened, or opened anew.
  lemma OpenServed(w: World, sid: string) returns (steps: seq<Step>)
    requires w.reader.Ready?
    ensures Patient(steps) && Calm(w, steps) && Reopened(w, Run(w, steps), sid)
  {
    var front := OpenFront(w, sid);
    OpenReplied(w, Run(w, front), sid);
    RunAppend(w, front, [SendReply, Start]);
    CalmAppend(w, front, [SendReply, Start]);
    steps := front + [SendReply, Start];
  }

  lemma OpenSession() returns (steps: seq<Step>)
    ensures Patient(steps) && Calm(INITIAL, steps) && SessionOpen(Run(INITIAL, steps))
  {
    steps := OpenServed(INITIAL, "s");
    assert [] + [Session("s", false, Free, false)] == [Session("s", false, Free, false)];
  }

  // The prompt was cancelled by the batch that carried it: its slot is free
  // again, and its task has still to wake.
  ghost predicate PromptWithdrawn(w: World) {
    && w.sessions == [Session("s", false, Free, false)] && w.directory == map["s" := 0]
    && w.turns == [Turn(0, Dropped, U.FRESH, 0)] && w.reader.Ready?
  }

  // The batch's entries handled: the prompt is accepted, its channel cancelled.
  ghost predicate PromptCancelled(w: World, channel: nat) {
    && w.sessions == [Session("s", false, Claimed(0, false), false)] && w.directory == map["s" := 0]
    && w.turns == [Turn(0, Paused, U.FRESH, 0)] && w.cancelled == {channel}
    && w.reader == Busy(true, [PROMPT, CANCEL], [Prompt("s", true), CancelRequest(Null)], [Slip(0, Null, channel)],
                        NoWork, [Accepted(0)], [])
  }

  ghost predicate BatchPrompted(v: World, channel: nat) {
    && v.sessions == [Session("s", false, Claimed(0, false), false)] && v.directory == map["s" := 0]
    && v.turns == [Turn(0, Converting, U.FRESH, 0)] && v.cancelled == {} && v.pending == map[Null := channel]
    && v.reader == Busy(true, [PROMPT, CANCEL], [Prompt("s", true)], [Slip(0, Null, channel)],
                        ConvertingPrompt(0, true), [], [])
  }

  lemma BatchHandled(w: World, v: World)
    requires SessionOpen(w) && Took(w, v, true, [PROMPT, CANCEL])
    ensures BatchPrompted(Next(v, Handle(Prompt("s", true))), w.nextChannel)
  {
    assert [] + [Slip(0, Null, w.nextChannel)] == [Slip(0, Null, w.nextChannel)];
  }

  lemma BatchRead(w: World)
    requires SessionOpen(w)
    ensures BatchPrompted(Next(Next(w, Read(PROMPT_THEN_CANCEL)), Handle(Prompt("s", true))), w.nextChannel)
  {
    BatchLineParses();
    BatchTaken(w, PROMPT_THEN_CANCEL, [PROMPT, CANCEL]);
    BatchHandled(w, Next(w, Read(PROMPT_THEN_CANCEL)));
  }

  lemma CancelRead(w: World, channel: nat)
    requires BatchPrompted(w, channel)
    ensures PromptCancelled(Next(Next(w, Proceed), Handle(CancelRequest(Null))), channel)
  {
    var a := Next(w, Proceed);
    assert [] + [Accepted(0)] == [Accepted(0)];
    assert a.reader == w.reader.(work := NoWork, answers := [Accepted(0)]);
  }

  lemma WithdrawnNext(w: World, channel: nat)
    requires PromptCancelled(w, channel)
    ensures var v := Next(w, Resolve);
      && Withdraws(w, Resolve)
      && v.turns == [Turn(0, Dropped, U.FRESH, 0)] && v.sessions == [Session("s", false, Free, false)]
      && v.directory == w.directory && v.reader == w.reader.(results := [Withdrawn(0)])
  {
    assert [] + [Withdrawn(0)] == [Withdrawn(0)];
  }

  lemma WithdrawalSent(w: World)
    requires w.reader.Busy? && Handled(w.reader) && w.reader.batch && w.reader.entries == [PROMPT, CANCEL]
    requires w.reader.results == [Withdrawn(0)] && |w.reader.answers| == 1
    ensures var v := Next(Next(w, SendReply), Start);
      v.reader.Ready? && v.turns == w.turns && v.sessions == w.sessions && v.directory == w.directory
  {
    var replies := Replies([PROMPT, CANCEL], ResultsOf([Withdrawn(0)]), 0);
    assert replies != [] by { assert PROMPT == [PROMPT, CANCEL][0]; }
    assert StartsOf([Withdrawn(0)]) == [] by { assert [Withdrawn(0)][..0] == []; }
    assert Next(w, SendReply).reader == Starting([], None);
  }

  // From an open session to the batch with its prompt cancelled.
  lemma CancelAPrompt(w: World) returns (steps: seq<Step>)
    requires SessionOpen(w)
    ensures Calm(w, steps) && PromptCancelled(Run(w, steps), w.nextChannel)
  {
    var first, second := [Read(PROMPT_THEN_CANCEL), Handle(Prompt("s", true))], [Proceed, Handle(CancelRequest(Null))];
    BatchRead(w);
    RunTwo(w, first[0], first[1]);
    CalmTwo(w, first[0], first[1]);
    var v := Run(w, first);
    CancelRead(v, w.nextChannel);
    RunTwo(v, second[0], second[1]);
    CalmTwo(v, second[0], second[1]);
    RunAppend(w, first, second);
    CalmAppend(w, first, second);
    steps := first + second;
  }

  // Exclusivity does fail: a run in which one single prompt is cancelled before
  // its start, by the very batch that carries it, comes to a quiet state in which
  // every session is still exclusive, and then to one session with two live
  // tasks, because the cancelled task clears the slot a second time.
  lemma DoubleClearBreaks() returns (before: seq<Step>, reply: seq<Step>, after: seq<Step>)
    ensures Calm(INITIAL, before) && Withdraws(Run(INITIAL, before), Resolve)
    ensures var w := Run(INITIAL, before + [Resolve]);
      && Calm(w, reply) && Run(w, reply).reader.Ready? && Exclusive(Run(w, reply))
      && Calm(Run(w, reply), after) && !Exclusive(Run(Run(w, reply), after))
  {
    var open := OpenSession();
    var cancel := CancelAPrompt(Run(INITIAL, open));
    before := open + cancel;
    RunAppend(INITIAL, open, cancel);
    CalmAppend(INITIAL, open, cancel);
    WithdrawnNext(Run(INITIAL, before), Run(INITIAL, open).nextChannel);
    RunOneMore(INITIAL, before, Resolve);
    var w := Run(INITIAL, before + [Resolve]);
    reply := [SendReply, Start];
    WithdrawalSent(w);
    RunTwo(w, SendReply, Start);
    CalmTwo(w, SendReply, Start);
    RunAppend(INITIAL, before + [Resolve], reply);
    after := WithdrawnWakes(before + [Resolve] + reply);
  }

  lemma WithdrawnWakes(before: seq<Step>) returns (after: seq<Step>)
    requires PromptWithdrawn(Run(INITIAL, before))
    ensures Exclusive(Run(INITIAL, before))
    ensures Calm(Run(INITIAL, before), after) && !Exclusive(Run(Run(INITIAL, before), after))
  {
    var w := Run(INITIAL, before);
    RunKeepsBasic(INITIAL, before);
    TurnAnswers.RunKeepsChannels(before);
    assert DroppedOn(w, 0, 0);
    after := DroppedBesideFree(w, "s", 0);
  }
}
