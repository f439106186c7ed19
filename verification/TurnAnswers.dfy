/** The answers the reader gives: every request answered once, in order, in a
    frame of its own; and exactly which prompts are withdrawn before they start. */
module TurnAnswers {
  import opened Wrappers
  import opened RequestIds
  import opened Jsonrpc
  import opened Turns
  import TurnAck

  // ----------------------------------------------------------- what is owed

  function OwedFor(entries: seq<Entry>): seq<seq<RequestId>> {
    if RequestIdsOf(entries) == [] then [] else [RequestIdsOf(entries)]
  }

  // The ids of the frame owed for a line: an invalid line is owed an error under
  // the null id, a line without requests nothing.
  function OwedBy(line: Line): seq<seq<RequestId>> { OwedAs(FrameOf(line)) }

  function OwedAs(frame: Result<Option<Message>, Error>): seq<seq<RequestId>> {
    match frame
    case Err(_) => [[Null]]
    case Ok(None) => []
    case Ok(Some(Single(entry))) => OwedFor([entry])
    case Ok(Some(Batch(entries))) => OwedFor(entries)
  }

  function Owed(lines: seq<Line>): seq<seq<RequestId>> {
    if lines == [] then [] else Owed(lines[..|lines| - 1]) + OwedBy(lines[|lines| - 1])
  }

  function IdsOf(replies: seq<Jsonrpc.Reply>): seq<RequestId> {
    seq(|replies|, k requires 0 <= k < |replies| => replies[k].id)
  }

  function GivenBy(frame: Frame): seq<seq<RequestId>> {
    if frame.Answers? then [IdsOf(frame.replies)] else []
  }

  function Given(sink: seq<Frame>): seq<seq<RequestId>> {
    if sink == [] then [] else Given(sink[..|sink| - 1]) + GivenBy(sink[|sink| - 1])
  }

  // ------------------------------------------------------------------ invariant

  function SlipIds(slips: seq<Slip>): seq<RequestId> {
    seq(|slips|, k requires 0 <= k < |slips| => slips[k].id)
  }

  // Whether the work is that of a request not yet answered.
  predicate Serving(work: Work) { !work.NoWork? && !work.AbortingTurn? }

  // One slip per request handled, one answer per slip but the one being served.
  ghost predicate Counted(r: Reader)
    requires r.Busy?
  {
    && |r.actions| <= |r.entries|
    && SlipIds(r.slips) == RequestIdsOf(r.entries[..|r.actions|])
    && |r.slips| == |r.answers| + (if Serving(r.work) then 1 else 0)
    && |r.results| <= |r.answers|
  }

  ghost predicate Matched(frame: Frame) {
    frame.Answers? ==>
      |frame.replies| == |frame.answers|
      && forall k :: 0 <= k < |frame.replies| ==> frame.replies[k].result == ResultOf(frame.answers[k])
  }

  ghost predicate UpToDate(w: World) {
    match w.reader
    case Busy(_, entries, _, _, _, _, _) =>
      && w.received != []
      && Given(w.sink) == Owed(w.received[..|w.received| - 1])
      && OwedBy(w.received[|w.received| - 1]) == OwedFor(entries)
      && Counted(w.reader)
    case _ => Given(w.sink) == Owed(w.received)
  }

  ghost predicate AnswersInv(w: World) {
    UpToDate(w) && forall i :: 0 <= i < |w.sink| ==> Matched(w.sink[i])
  }

  lemma GivenOneMore(sink: seq<Frame>, frame: Frame)
    ensures Given(sink + [frame]) == Given(sink) + GivenBy(frame)
  {
    assert (sink + [frame])[..|sink|] == sink;
  }

  lemma {:induction false} RequestIdsOneMore(entries: seq<Entry>, entry: Entry)
    ensures RequestIdsOf(entries + [entry]) == RequestIdsOf(entries) + (if entry.Request? then [entry.id] else [])
  {
    if entries != [] {
      assert (entries + [entry])[1..] == entries[1..] + [entry];
      RequestIdsOneMore(entries[1..], entry);
    } else {
      assert ([] + [entry])[1..] == [];
    }
  }

  // No answer was given, and the reader still owes the same.
  ghost predicate Quiet(w: World, v: World) {
    && v.received == w.received
    && (v.sink == w.sink
        || (|v.sink| == |w.sink| + 1 && v.sink == w.sink + [v.sink[|w.sink|]] && v.sink[|w.sink|].Notice?))
  }

  lemma QuietKeepsAnswers(w: World, v: World)
    requires AnswersInv(w) && Quiet(w, v)
    requires v.reader == w.reader
      || (w.reader.Busy? && v.reader.Busy? && v.reader.entries == w.reader.entries && Counted(v.reader))
      || (w.reader.Starting? && !v.reader.Busy?)
    ensures AnswersInv(v)
  {
    if v.sink != w.sink { GivenOneMore(w.sink, v.sink[|w.sink|]); }
  }

  lemma TaskQuiet(w: World, step: Step, t: nat)
    requires t < |w.turns|
    ensures Quiet(w, TaskStep(w, step, t)) && TaskStep(w, step, t).reader == w.reader
  {
    TaskShape(w, step, t);
  }

  // Dispatching a request answers it or leaves work that will.
  ghost predicate Dispatches(w: World, v: World) {
    && v.received == w.received && v.sink == w.sink && w.reader.Busy? && v.reader.Busy?
    && v.reader.entries == w.reader.entries && v.reader.actions == w.reader.actions
    && v.reader.slips == w.reader.slips && v.reader.results == w.reader.results
    && |v.reader.answers| + (if Serving(v.reader.work) then 1 else 0) == |w.reader.answers| + 1
    && |w.reader.answers| <= |v.reader.answers|
  }

  lemma ClaimDispatches(w: World, sid: string, convertible: bool)
    requires w.reader.Busy?
    ensures Dispatches(w, Claim(w, sid, convertible))
  {
  }

  lemma CloseDispatches(w: World, sid: string, archive: Option<Result<Json, Error>>)
    requires w.reader.Busy?
    ensures Dispatches(w, CloseBegun(w, sid, archive))
  {
  }

  lemma DispatchSlips(w: World, action: Action)
    requires w.reader.Busy? && (action.Prompt? || action.Open? || action.Close? || action.Serve?)
    ensures Dispatches(w, Dispatched(w, action))
  {
    match action
    case Prompt(sid, convertible) => ClaimDispatches(w, sid, convertible);
    case Close(sid, archive) => CloseDispatches(w, sid, archive);
    case _ =>
  }

  lemma NotifiedSlips(w: World, action: Action)
    requires w.reader.Busy? && w.reader.work.NoWork?
    ensures var v := Notified(w, action);
      && v.received == w.received && v.sink == w.sink
      && v.reader.Busy? && v.reader == w.reader.(work := v.reader.work) && !Serving(v.reader.work)
  {
  }

  // One slip more for a request, none for anything else.
  lemma HandleSlips(w: World, action: Action)
    requires w.reader.Busy? && HandleStep(w, action) != w
    ensures var r, v := w.reader, HandleStep(w, action);
      && v.received == w.received && v.sink == w.sink
      && v.reader.Busy? && |r.actions| < |r.entries| && r.work == NoWork
      && v.reader.entries == r.entries && v.reader.actions == r.actions + [action]
      && v.reader.results == r.results
      && (if r.entries[|r.actions|].Request? then
            && v.reader.slips == r.slips + [Slip(|r.actions|, r.entries[|r.actions|].id, w.nextChannel)]
            && |v.reader.answers| + (if Serving(v.reader.work) then 1 else 0) == |r.answers| + 1
          else v.reader.slips == r.slips && v.reader.answers == r.answers && !Serving(v.reader.work))
      && |r.answers| <= |v.reader.answers|
  {
    var r := w.reader;
    var u := w.(reader := r.(actions := r.actions + [action]));
    match r.entries[|r.actions|]
    case Request(id, _, _) => DispatchSlips(Registered(u, id), action);
    case Notification(_, _) => NotifiedSlips(u, action);
    case Response(_, _, _) =>
  }

  lemma SlipsCounted(r: Reader, r': Reader, action: Action, channel: nat)
    requires r.Busy? && Counted(r) && r.work.NoWork? && |r.actions| < |r.entries|
    requires r'.Busy? && r'.entries == r.entries && r'.actions == r.actions + [action] && r'.results == r.results
    requires r'.slips == r.slips + SlipFor(r.entries[|r.actions|], |r.actions|, channel)
    requires |r'.slips| == |r'.answers| + (if Serving(r'.work) then 1 else 0) && |r.answers| <= |r'.answers|
    ensures Counted(r')
  {
    var n := |r.actions|;
    RequestIdsOneMore(r.entries[..n], r.entries[n]);
    assert r.entries[..n + 1] == r.entries[..n] + [r.entries[n]];
    assert SlipIds(r'.slips) == SlipIds(r.slips) + (if r.entries[n].Request? then [r.entries[n].id] else []);
  }

  function SlipFor(entry: Entry, at: nat, channel: nat): seq<Slip> {
    if entry.Request? then [Slip(at, entry.id, channel)] else []
  }

  lemma HandleQuiet(w: World, action: Action)
    requires w.reader.Busy? && Counted(w.reader)
    ensures var v := HandleStep(w, action);
      Quiet(w, v) && v.reader.Busy? && v.reader.entries == w.reader.entries && Counted(v.reader)
  {
    var r, v := w.reader, HandleStep(w, action);
    if v != w {
      HandleSlips(w, action);
      SlipsCounted(r, v.reader, action, w.nextChannel);
    }
  }

  lemma ProceedQuiet(w: World)
    requires w.reader.Busy? && Counted(w.reader)
    ensures var v := ProceedStep(w);
      Quiet(w, v) && v.reader.Busy? && v.reader.entries == w.reader.entries && Counted(v.reader)
  {
    match w.reader.work
    case ConvertingPrompt(_, _) => ConvertQuiet(w);
    case Publishing(_, _, _) => PublishQuiet(w);
    case AbortingTurn(_) =>
    case NoWork =>
    case _ => CloseQuiet(w);
  }

  lemma ConvertQuiet(w: World)
    requires w.reader.Busy? && Counted(w.reader) && w.reader.work.ConvertingPrompt?
    ensures var v := Convert(w);
      Quiet(w, v) && v.reader.Busy? && v.reader.entries == w.reader.entries && Counted(v.reader)
  {
  }

  lemma PublishQuiet(w: World)
    requires w.reader.Busy? && Counted(w.reader) && w.reader.work.Publishing?
    ensures var v := Publish(w);
      Quiet(w, v) && v.reader.Busy? && v.reader.entries == w.reader.entries && Counted(v.reader)
  {
  }

  lemma CloseQuiet(w: World)
    requires w.reader.Busy? && Counted(w.reader) && Closing(w.reader.work)
    ensures var v := CloseOn(w);
      Quiet(w, v) && v.reader.Busy? && v.reader.entries == w.reader.entries && Counted(v.reader)
  {
  }

  lemma ResolveQuiet(w: World)
    requires w.reader.Busy? && Counted(w.reader)
    ensures var v := ResolveStep(w);
      Quiet(w, v) && v.reader.Busy? && v.reader.entries == w.reader.entries && Counted(v.reader)
  {
  }

  // The replies carry the request ids in order and the answers' results, and the
  // internal-error fallback for a missing result is never used.
  lemma RepliesRight(batch: bool, entries: seq<Entry>, answers: seq<Answer>)
    requires |answers| == |RequestIdsOf(entries)|
    ensures var replies := Replies(entries, ResultsOf(answers), 0);
      && IdsOf(replies) == RequestIdsOf(entries) && Matched(Answers(batch, replies, answers))
  {
    BatchPairing(entries, ResultsOf(answers), 0);
  }

  lemma ReplyShape(w: World)
    requires w.reader.Busy? && Counted(w.reader) && ReplyStep(w) != w
    ensures var r, v := w.reader, ReplyStep(w);
      var replies := Replies(r.entries, ResultsOf(r.results), 0);
      && |r.results| == |RequestIdsOf(r.entries)|
      && v.received == w.received && !v.reader.Busy?
      && v.sink == if replies == [] then w.sink else w.sink + [Answers(r.batch, replies, r.results)]
  {
    assert w.reader.entries[..|w.reader.actions|] == w.reader.entries;
    assert |SlipIds(w.reader.slips)| == |w.reader.results|;
  }

  lemma ReplyKeepsAnswers(w: World)
    requires AnswersInv(w) && w.reader.Busy?
    ensures AnswersInv(ReplyStep(w))
  {
    var r, v := w.reader, ReplyStep(w);
    if v != w {
      ReplyShape(w);
      RepliesRight(r.batch, r.entries, r.results);
      ReplyOwed(w, v, Answers(r.batch, Replies(r.entries, ResultsOf(r.results), 0), r.results));
    }
  }

  lemma ReplyOwed(w: World, v: World, frame: Frame)
    requires AnswersInv(w) && w.reader.Busy? && !v.reader.Busy? && v.received == w.received
    requires frame.Answers? && Matched(frame) && IdsOf(frame.replies) == RequestIdsOf(w.reader.entries)
    requires v.sink == if frame.replies == [] then w.sink else w.sink + [frame]
    ensures AnswersInv(v)
  {
    var owed := OwedFor(w.reader.entries);
    assert |IdsOf(frame.replies)| == |frame.replies|;
    assert Owed(w.received) == Given(w.sink) + owed;
    if frame.replies == [] {
      assert owed == [] && Given(w.sink) + [] == Given(w.sink);
    } else {
      GivenOneMore(w.sink, frame);
      assert owed == GivenBy(frame);
    }
  }

  // What taking a line owes and gives.
  lemma TakenOwes(w: World, frame: Result<Option<Message>, Error>)
    requires w.reader.Ready? && forall i :: 0 <= i < |w.sink| ==> Matched(w.sink[i])
    ensures var v := Taken(w, frame);
      && v.received == w.received && (forall i :: 0 <= i < |v.sink| ==> Matched(v.sink[i]))
      && (if v.reader.Busy? then v.sink == w.sink && OwedAs(frame) == OwedFor(v.reader.entries) && Counted(v.reader)
          else Given(v.sink) == Given(w.sink) + OwedAs(frame))
  {
    match frame
    case Err(e) => ErrorAnswered(w, e);
    case Ok(None) => assert Given(w.sink) + [] == Given(w.sink);
    case Ok(Some(Single(entry))) => FirstCounted(false, [entry]);
    case Ok(Some(Batch(entries))) => FirstCounted(true, entries);
  }

  lemma FirstCounted(batch: bool, entries: seq<Entry>)
    ensures Counted(Busy(batch, entries, [], [], NoWork, [], []))
  {
    assert SlipIds([]) == [];
  }

  lemma ErrorAnswered(w: World, e: Error)
    ensures var frame := Answers(false, [Jsonrpc.Reply(Null, Err(e))], [Plain(Err(e))]);
      Given(w.sink + [frame]) == Given(w.sink) + [[Null]] && Matched(frame)
  {
    var frame := Answers(false, [Jsonrpc.Reply(Null, Err(e))], [Plain(Err(e))]);
    GivenOneMore(w.sink, frame);
    assert IdsOf(frame.replies) == [Null];
  }

  lemma ReadKeepsAnswers(w: World, line: Line)
    requires AnswersInv(w) && w.reader.Ready?
    ensures AnswersInv(ReadStep(w, line))
  {
    var v := w.(received := w.received + [line]);
    assert v.received[..|v.received| - 1] == w.received;
    TakenOwes(v, FrameOf(line));
  }

  lemma ReaderKeepsAnswers(w: World, step: Step)
    requires AnswersInv(w)
    ensures AnswersInv(ReaderStep(w, step))
  {
    match w.reader
    case Ready => if step.Read? { ReadKeepsAnswers(w, step.line); }
    case Starting(_, _) => if step.Start? { QuietKeepsAnswers(w, StartStep(w)); }
    case Busy(_, _, _, _, _, _, _) => BusyKeepsAnswers(w, step);
  }

  lemma BusyKeepsAnswers(w: World, step: Step)
    requires AnswersInv(w) && w.reader.Busy?
    ensures AnswersInv(ReaderStep(w, step))
  {
    match step
    case Handle(action) => HandleQuiet(w, action); QuietKeepsAnswers(w, HandleStep(w, action));
    case Proceed => ProceedQuiet(w); QuietKeepsAnswers(w, ProceedStep(w));
    case TimeOut => QuietKeepsAnswers(w, TimeOutStep(w));
    case Resolve => ResolveQuiet(w); QuietKeepsAnswers(w, ResolveStep(w));
    case SendReply => ReplyKeepsAnswers(w);
    case _ =>
  }

  lemma StepKeepsAnswers(w: World, step: Step)
    requires AnswersInv(w)
    ensures AnswersInv(Next(w, step))
  {
    if !IsTaskStep(step) {
      ReaderKeepsAnswers(w, step);
    } else if step.t < |w.turns| {
      TaskQuiet(w, step, step.t);
      QuietKeepsAnswers(w, Next(w, step));
    }
  }

  lemma {:induction false} RunKeepsAnswers(steps: seq<Step>)
    ensures AnswersInv(Run(INITIAL, steps))
    decreases |steps|
  {
    if steps != [] {
      RunKeepsAnswers(steps[..|steps| - 1]);
      StepKeepsAnswers(Run(INITIAL, steps[..|steps| - 1]), steps[|steps| - 1]);
    }
  }

  // Whenever the reader is not busy with a line, the answer frames in the output
  // queue are exactly those owed for the lines read, in order, each with its
  // line's request ids in order; while it is busy, the last line's is missing.
  lemma {:induction false} AnsweredInOrder(steps: seq<Step>)
    ensures var w := Run(INITIAL, steps);
      if w.reader.Busy? then w.received != [] && Given(w.sink) == Owed(w.received[..|w.received| - 1])
      else Given(w.sink) == Owed(w.received)
  {
    RunKeepsAnswers(steps);
  }

  // The k-th reply of a frame carries the k-th answer's result: none is missing,
  // none left over.
  lemma {:induction false} RepliesMatchAnswers(steps: seq<Step>, i: nat)
    requires i < |Run(INITIAL, steps).sink|
    ensures Matched(Run(INITIAL, steps).sink[i])
  {
    RunKeepsAnswers(steps);
  }

  // ------------------------------------------------------ withdrawn exactly when

  predicate Repeats(entry: Entry, id: RequestId) { entry.Request? && entry.id == id }

  // Among the first `n` entries, the request at `at` is followed by a
  // `$/cancel_request` for its id, before any other request reuses the id.
  ghost predicate CancelledAfter(entries: seq<Entry>, actions: seq<Action>, at: nat, id: RequestId, n: nat)
    requires n <= |actions| && n <= |entries|
  {
    exists j :: at < j < n && actions[j] == CancelRequest(id) && Unrepeated(entries, at, j, id)
  }

  ghost predicate Unrepeated(entries: seq<Entry>, at: nat, j: nat, id: RequestId)
    requires j <= |entries|
  {
    forall m :: at < m < j ==> !Repeats(entries[m], id)
  }

  // Its cancel channel is still the one in the table.
  ghost predicate StillOpen(entries: seq<Entry>, actions: seq<Action>, at: nat, id: RequestId, n: nat)
    requires n <= |actions| && n <= |entries|
  {
    Unrepeated(entries, at, n, id) && forall m :: at < m < n ==> actions[m] != CancelRequest(id)
  }

  lemma CancelledAfterOneMore(entries: seq<Entry>, actions: seq<Action>, action: Action, at: nat, id: RequestId)
    requires |actions| < |entries| && at < |actions|
    ensures var n := |actions|;
      CancelledAfter(entries, actions + [action], at, id, n + 1) <==>
        CancelledAfter(entries, actions, at, id, n) || (action == CancelRequest(id) && Unrepeated(entries, at, n, id))
  {
    var n, more := |actions|, actions + [action];
    if CancelledAfter(entries, actions, at, id, n) {
      var j :| at < j < n && actions[j] == CancelRequest(id) && Unrepeated(entries, at, j, id);
      assert more[j] == CancelRequest(id);
    }
    if action == CancelRequest(id) && Unrepeated(entries, at, n, id) {
      assert more[n] == CancelRequest(id);
    }
    if CancelledAfter(entries, more, at, id, n + 1) {
      var j :| at < j < n + 1 && more[j] == CancelRequest(id) && Unrepeated(entries, at, j, id);
      assert j < n ==> actions[j] == CancelRequest(id);
    }
  }

  // A request no longer open, and not followed by another under its id, has been
  // cancelled.
  lemma ClosedMeansCancelled(entries: seq<Entry>, actions: seq<Action>, at: nat, id: RequestId)
    requires |actions| <= |entries| && Unrepeated(entries, at, |actions|, id)
    requires !StillOpen(entries, actions, at, id, |actions|)
    ensures CancelledAfter(entries, actions, at, id, |actions|)
  {
    var m :| at < m < |actions| && actions[m] == CancelRequest(id);
    assert Unrepeated(entries, at, m, id);
  }

  ghost predicate SlipSound(w: World, slip: Slip)
    requires w.reader.Busy? && |w.reader.actions| <= |w.reader.entries|
  {
    var r := w.reader;
    && slip.at < |r.actions| && Repeats(r.entries[slip.at], slip.id) && slip.channel < w.nextChannel
    && (slip.channel in w.cancelled <==> CancelledAfter(r.entries, r.actions, slip.at, slip.id, |r.actions|))
    && (|r.actions| < |r.entries| ==>
         (slip.id in w.pending && w.pending[slip.id] == slip.channel <==>
          StillOpen(r.entries, r.actions, slip.at, slip.id, |r.actions|)))
    && (forall id :: id in w.pending && w.pending[id] == slip.channel ==> id == slip.id)
  }

  predicate Choice(r: Reader, k: nat)
    requires r.Busy?
  {
    k < |r.results| && |r.results| <= |r.answers| && |r.answers| <= |r.slips|
  }

  ghost predicate ResultSound(w: World, k: nat)
    requires w.reader.Busy? && Choice(w.reader, k) && |w.reader.actions| <= |w.reader.entries|
  {
    var r := w.reader;
    r.results[k] ==
      if r.answers[k].Accepted?
         && CancelledAfter(r.entries, r.actions, r.slips[k].at, r.slips[k].id, |r.actions|)
      then Withdrawn(r.answers[k].turn) else r.answers[k]
  }

  ghost predicate ChannelsSound(w: World) {
    && (forall c :: c in w.cancelled ==> c < w.nextChannel)
    && (forall id :: id in w.pending ==> w.pending[id] < w.nextChannel)
    && (w.reader.Busy? ==>
         var r := w.reader;
         && Counted(r)
         && (!r.batch ==> |r.entries| == 1)
         && (forall k :: 0 <= k < |r.slips| ==> SlipSound(w, r.slips[k]))
         && (r.results != [] ==> Handled(r))
         && (forall k :: 0 <= k < |r.results| ==> ResultSound(w, k)))
  }

  // The reader moved on without touching the cancellation table.
  lemma SameChannels(w: World, v: World)
    requires ChannelsSound(w) && w.reader.Busy? && v.reader.Busy? && Counted(v.reader)
    requires v.cancelled == w.cancelled && v.pending == w.pending && v.nextChannel == w.nextChannel
    requires v.reader == w.reader.(work := v.reader.work, answers := v.reader.answers)
    requires v.reader.answers == w.reader.answers || w.reader.results == []
    requires v.reader.work == w.reader.work || w.reader.results == []
    ensures ChannelsSound(v)
  {
    forall k | 0 <= k < |v.reader.slips| ensures SlipSound(v, v.reader.slips[k]) {
      assert SlipSound(w, w.reader.slips[k]);
    }
    forall k | 0 <= k < |v.reader.results| ensures ResultSound(v, k) { assert ResultSound(w, k); }
  }

  lemma ResolveChannels(w: World)
    requires ChannelsSound(w) && w.reader.Busy?
    ensures ChannelsSound(ResolveStep(w))
  {
    var r, v := w.reader, ResolveStep(w);
    if v != w {
      var n := |r.results|;
      assert v.reader == r.(results := r.results + [v.reader.results[n]]) && v.cancelled == w.cancelled;
      forall k | 0 <= k < |v.reader.slips| ensures SlipSound(v, v.reader.slips[k]) {
        assert SlipSound(w, r.slips[k]);
      }
      forall k | 0 <= k < |v.reader.results| ensures ResultSound(v, k) {
        if k < n { assert ResultSound(w, k); } else { assert SlipSound(w, r.slips[n]); }
      }
    }
  }

  // An entry that asks for no cancellation and reuses no open id.
  lemma SlipUndisturbed(w: World, v: World, slip: Slip, action: Action)
    requires w.reader.Busy? && v.reader.Busy? && Counted(w.reader) && |w.reader.actions| < |w.reader.entries|
    requires v.reader.entries == w.reader.entries && v.reader.actions == w.reader.actions + [action]
    requires SlipSound(w, slip) && w.nextChannel <= v.nextChannel
    requires action != CancelRequest(slip.id)
    requires slip.channel in v.cancelled <==> slip.channel in w.cancelled
    requires forall id :: id in v.pending && v.pending[id] == slip.channel ==>
      id in w.pending && w.pending[id] == slip.channel
    requires slip.id in v.pending && v.pending[slip.id] == slip.channel <==>
      (slip.id in w.pending && w.pending[slip.id] == slip.channel
       && !Repeats(w.reader.entries[|w.reader.actions|], slip.id))
    ensures SlipSound(v, slip)
  {
    CancelledAfterOneMore(w.reader.entries, w.reader.actions, action, slip.at, slip.id);
  }

  lemma SlipCancelled(w: World, v: World, slip: Slip)
    requires w.reader.Busy? && v.reader.Busy? && Counted(w.reader) && |w.reader.actions| < |w.reader.entries|
    requires v.reader.entries == w.reader.entries && v.reader.actions == w.reader.actions + [CancelRequest(slip.id)]
    requires SlipSound(w, slip) && v.nextChannel == w.nextChannel
    requires v.pending == w.pending - {slip.id}
    requires v.cancelled == w.cancelled + (if slip.id in w.pending then {w.pending[slip.id]} else {})
    ensures SlipSound(v, slip)
  {
    var r := w.reader;
    CancelledAfterOneMore(r.entries, r.actions, CancelRequest(slip.id), slip.at, slip.id);
    if Unrepeated(r.entries, slip.at, |r.actions|, slip.id)
      && !StillOpen(r.entries, r.actions, slip.at, slip.id, |r.actions|) {
      ClosedMeansCancelled(r.entries, r.actions, slip.at, slip.id);
    }
    assert v.reader.actions[|r.actions|] == CancelRequest(slip.id);
  }

  // What handling an entry does to the cancellation table.
  lemma HandleTable(w: World, action: Action)
    requires w.reader.Busy? && HandleStep(w, action) != w
    ensures var r, v := w.reader, HandleStep(w, action);
      && |r.actions| < |r.entries| && Suits(r.entries[|r.actions|], action)
      && (if r.entries[|r.actions|].Request? then
            && v.pending == w.pending[r.entries[|r.actions|].id := w.nextChannel]
            && v.nextChannel == w.nextChannel + 1 && v.cancelled == w.cancelled
          else if action.CancelRequest? then
            && v.pending == w.pending - {action.id} && v.nextChannel == w.nextChannel
            && v.cancelled == w.cancelled + (if action.id in w.pending then {w.pending[action.id]} else {})
          else
            v.pending == w.pending && v.nextChannel == w.nextChannel && v.cancelled == w.cancelled)
      && v.reader.Busy? && v.reader.batch == r.batch
  {
  }

  lemma NewSlipSound(w: World, v: World, action: Action)
    requires ChannelsSound(w) && w.reader.Busy? && HandleStep(w, action) == v != w
    requires w.reader.entries[|w.reader.actions|].Request?
    ensures SlipSound(v, Slip(|w.reader.actions|, w.reader.entries[|w.reader.actions|].id, w.nextChannel))
  {
    HandleSlips(w, action);
    HandleTable(w, action);
  }

  lemma OldSlipSound(w: World, v: World, action: Action, slip: Slip)
    requires ChannelsSound(w) && w.reader.Busy? && HandleStep(w, action) == v != w && slip in w.reader.slips
    ensures SlipSound(v, slip)
  {
    HandleSlips(w, action);
    HandleTable(w, action);
    assert SlipSound(w, slip);
    if action == CancelRequest(slip.id) {
      SlipCancelled(w, v, slip);
    } else {
      SlipUndisturbed(w, v, slip, action);
    }
  }

  lemma HandleChannels(w: World, action: Action)
    requires ChannelsSound(w) && w.reader.Busy?
    ensures ChannelsSound(HandleStep(w, action))
  {
    var v := HandleStep(w, action);
    if v != w {
      HandleQuiet(w, action);
      HandleSlips(w, action);
      HandleTable(w, action);
      forall k | 0 <= k < |v.reader.slips| ensures SlipSound(v, v.reader.slips[k]) {
        if k < |w.reader.slips| {
          OldSlipSound(w, v, action, w.reader.slips[k]);
        } else {
          NewSlipSound(w, v, action);
        }
      }
    }
  }

  lemma TimeOutChannels(w: World)
    requires ChannelsSound(w) && w.reader.Busy?
    ensures ChannelsSound(TimeOutStep(w))
  {
    if w.reader.work.ClosingWait? { SameChannels(w, TimeOutStep(w)); }
  }

  lemma ReadChannels(w: World, frame: Result<Option<Message>, Error>)
    requires ChannelsSound(w) && !w.reader.Busy?
    ensures ChannelsSound(Taken(w, frame))
  {
    if Taken(w, frame).reader.Busy? {
      FirstCounted(Taken(w, frame).reader.batch, Taken(w, frame).reader.entries);
    }
  }

  lemma ReaderKeepsChannels(w: World, step: Step)
    requires ChannelsSound(w)
    ensures ChannelsSound(ReaderStep(w, step))
  {
    match w.reader
    case Ready => if step.Read? { ReadChannels(w.(received := w.received + [step.line]), FrameOf(step.line)); }
    case Starting(_, _) =>
    case Busy(_, _, _, _, _, _, _) =>
      match step {
        case Handle(action) => HandleChannels(w, action);
        case Proceed => ProceedChannels(w);
        case TimeOut => TimeOutChannels(w);
        case Resolve => ResolveChannels(w);
        case _ =>
      }
  }

  lemma ProceedChannels(w: World)
    requires ChannelsSound(w) && w.reader.Busy?
    ensures ChannelsSound(ProceedStep(w))
  {
    if ProceedStep(w) != w {
      ProceedQuiet(w);
      ProceedTable(w);
      SameChannels(w, ProceedStep(w));
    }
  }

  // Work moves on without touching the cancellation table.
  ghost predicate TableAside(w: World, v: World) {
    && w.reader.Busy? && v.reader.Busy?
    && v.reader == w.reader.(work := v.reader.work, answers := v.reader.answers)
    && v.cancelled == w.cancelled && v.pending == w.pending && v.nextChannel == w.nextChannel
  }

  lemma PublishTable(w: World)
    requires w.reader.Busy? && w.reader.work.Publishing?
    ensures TableAside(w, Publish(w))
  {
  }

  lemma CloseTable(w: World)
    requires w.reader.Busy? && Closing(w.reader.work)
    ensures TableAside(w, CloseOn(w))
  {
  }

  lemma ProceedTable(w: World)
    requires w.reader.Busy? && ProceedStep(w) != w
    ensures TableAside(w, ProceedStep(w)) && !w.reader.work.NoWork?
  {
    match w.reader.work
    case NoWork =>
    case ConvertingPrompt(_, _) => assert TableAside(w, Convert(w));
    case Publishing(_, _, _) => PublishTable(w);
    case AbortingTurn(_) =>
    case _ => CloseTable(w);
  }

  lemma {:induction false} RunKeepsChannels(steps: seq<Step>)
    ensures ChannelsSound(Run(INITIAL, steps))
    decreases |steps|
  {
    if steps != [] {
      var front, last := steps[..|steps| - 1], steps[|steps| - 1];
      var w := Run(INITIAL, front);
      RunKeepsChannels(front);
      if !IsTaskStep(last) {
        ReaderKeepsChannels(w, last);
      } else if last.t < |w.turns| {
        TaskTable(w, last, last.t);
      }
    }
  }

  lemma TaskTable(w: World, step: Step, t: nat)
    requires ChannelsSound(w) && t < |w.turns|
    ensures ChannelsSound(TaskStep(w, step, t))
  {
    var v := TaskStep(w, step, t);
    TaskShape(w, step, t);
    if v.reader.Busy? {
      forall k | 0 <= k < |v.reader.slips| ensures SlipSound(v, v.reader.slips[k]) {
        assert SlipSound(w, w.reader.slips[k]);
      }
      forall k | 0 <= k < |v.reader.results| ensures ResultSound(v, k) { assert ResultSound(w, k); }
    }
  }

  // Of the answers resolved, a prompt's is a withdrawal exactly if the prompt was
  // accepted and a later entry of the same frame cancels its id, before any other
  // request of the frame reuses the id.
  lemma {:induction false} WithdrawnExactly(steps: seq<Step>, k: nat)
    requires var r := Run(INITIAL, steps).reader; r.Busy? && k < |r.results|
    ensures var r := Run(INITIAL, steps).reader;
      && |r.results| <= |r.answers| <= |r.slips| && |r.actions| == |r.entries|
      && (r.results[k].Withdrawn? <==>
          r.answers[k].Accepted? && CancelledAfter(r.entries, r.actions, r.slips[k].at, r.slips[k].id, |r.entries|))
      && (!r.results[k].Withdrawn? ==> r.results[k] == r.answers[k])
  {
    RunKeepsChannels(steps);
    TurnAck.RunKeepsWithdrawn(steps);
    var w := Run(INITIAL, steps);
    assert ResultSound(w, k);
  }

  // ------------------------------------------------------------ single requests

  ghost predicate Kept(frame: Frame) {
    frame.Answers? && !frame.batch ==> forall k :: 0 <= k < |frame.answers| ==> !frame.answers[k].Withdrawn?
  }

  lemma SingleKept(w: World)
    requires ChannelsSound(w) && TurnAck.HeldPaused(w) && w.reader.Busy? && !w.reader.batch
    ensures forall k :: 0 <= k < |w.reader.results| ==> !w.reader.results[k].Withdrawn?
  {
    var r := w.reader;
    forall k | 0 <= k < |r.results| ensures !r.results[k].Withdrawn? {
      assert ResultSound(w, k) && SlipSound(w, r.slips[k]);
    }
  }

  ghost predicate AddsKept(w: World, v: World) {
    v.sink == w.sink
    || (|v.sink| == |w.sink| + 1 && v.sink == w.sink + [v.sink[|w.sink|]] && Kept(v.sink[|w.sink|]))
  }

  lemma ReplyAddsKept(w: World)
    requires ChannelsSound(w) && TurnAck.HeldPaused(w) && w.reader.Busy?
    ensures AddsKept(w, ReplyStep(w))
  {
    if !w.reader.batch { SingleKept(w); }
  }

  lemma ReaderAddsKept(w: World, step: Step)
    requires ChannelsSound(w) && TurnAck.HeldPaused(w)
    ensures AddsKept(w, ReaderStep(w, step))
  {
    match w.reader
    case Ready =>
    case Starting(_, _) =>
    case Busy(_, _, _, _, _, _, _) =>
      match step {
        case Handle(action) => if HandleStep(w, action) != w { HandleSlips(w, action); }
        case Proceed => ProceedQuiet(w);
        case SendReply => ReplyAddsKept(w);
        case _ =>
      }
  }

  // Only in a batch can a prompt be cancelled before it starts: the reader takes
  // no further line while it still holds a single request.
  lemma {:induction false} SinglesNeverWithdrawn(steps: seq<Step>, i: nat)
    requires i < |Run(INITIAL, steps).sink|
    ensures Kept(Run(INITIAL, steps).sink[i])
    decreases |steps|
  {
    var front, last := steps[..|steps| - 1], steps[|steps| - 1];
    var w := Run(INITIAL, front);
    forall j | 0 <= j < |w.sink| ensures Kept(w.sink[j]) { SinglesNeverWithdrawn(front, j); }
    if !IsTaskStep(last) {
      RunKeepsChannels(front);
      TurnAck.RunKeepsWithdrawn(front);
      ReaderAddsKept(w, last);
    } else if last.t < |w.turns| {
      TaskShape(w, last, last.t);
    }
  }

  // ------------------------------------------------------------ no task is left

  // The reader still has the paused task's start signal in hand.
  ghost predicate InHand(r: Reader, t: nat) {
    match r
    case Ready => false
    case Starting(starts, _) => t in starts
    case Busy(_, _, _, _, _, answers, results) =>
      exists k :: 0 <= k < |answers| && answers[k] == Accepted(t) && (k < |results| ==> results[k] == Accepted(t))
  }

  ghost predicate PausedInHand(w: World) {
    forall t :: 0 <= t < |w.turns| && w.turns[t].phase.Paused? ==> InHand(w.reader, t)
  }

  // The reader keeps what it has, and pauses no task without taking its signal.
  lemma MoreInHand(w: World, v: World)
    requires PausedInHand(w) && w.reader.Busy? && v.reader.Busy? && |w.turns| <= |v.turns|
    requires |w.reader.results| <= |w.reader.answers|
    requires w.reader.answers <= v.reader.answers && v.reader.results == w.reader.results
    requires forall t :: 0 <= t < |v.turns| && v.turns[t].phase.Paused? ==>
      (t < |w.turns| && w.turns[t].phase.Paused?)
      || (|w.reader.answers| < |v.reader.answers| && v.reader.answers[|w.reader.answers|] == Accepted(t))
    ensures PausedInHand(v)
  {
    forall t | 0 <= t < |v.turns| && v.turns[t].phase.Paused? ensures InHand(v.reader, t) {
      if t < |w.turns| && w.turns[t].phase.Paused? {
        var k :| 0 <= k < |w.reader.answers| && w.reader.answers[k] == Accepted(t)
                 && (k < |w.reader.results| ==> w.reader.results[k] == Accepted(t));
        assert v.reader.answers[k] == Accepted(t);
      }
    }
  }

  lemma HandleInHand(w: World, action: Action)
    requires PausedInHand(w) && ChannelsSound(w) && w.reader.Busy?
    ensures PausedInHand(HandleStep(w, action))
  {
    var v := HandleStep(w, action);
    if v != w {
      HandleSlips(w, action);
      TurnAck.HandleProgress(w, action);
      MoreInHand(w, v);
    }
  }

  lemma ProceedInHand(w: World)
    requires PausedInHand(w) && ChannelsSound(w) && w.reader.Busy?
    ensures PausedInHand(ProceedStep(w))
  {
    var v := ProceedStep(w);
    if w.reader.work.ConvertingPrompt? {
      assert v.reader.answers == w.reader.answers
        || v.reader.answers == w.reader.answers + [v.reader.answers[|w.reader.answers|]];
    } else {
      TurnAck.ProceedTells(w);
    }
    MoreInHand(w, v);
  }

  lemma StillInHand(r: Reader, r': Reader, t: nat)
    requires r.Busy? && r'.Busy? && InHand(r, t) && r'.answers == r.answers && |r.results| < |r.answers|
    requires |r'.results| == |r.results| + 1 && r'.results == r.results + [r'.results[|r.results|]]
    requires r'.results[|r.results|] == r.answers[|r.results|] || r.answers[|r.results|] != Accepted(t)
    ensures InHand(r', t)
  {
    var k :| 0 <= k < |r.answers| && r.answers[k] == Accepted(t) && (k < |r.results| ==> r.results[k] == Accepted(t));
    assert r'.answers[k] == Accepted(t);
    assert k <= |r.results| ==> r'.results[k] == Accepted(t);
  }

  lemma ResolveInHand(w: World)
    requires PausedInHand(w) && w.reader.Busy?
    ensures PausedInHand(ResolveStep(w))
  {
    var v := ResolveStep(w);
    if v != w {
      forall t | 0 <= t < |v.turns| && v.turns[t].phase.Paused? ensures InHand(v.reader, t) {
        assert w.turns[t].phase.Paused?;
        StillInHand(w.reader, v.reader, t);
      }
    }
  }

  lemma ReplyInHand(w: World)
    requires PausedInHand(w) && ChannelsSound(w) && w.reader.Busy?
    ensures PausedInHand(ReplyStep(w))
  {
    var r, v := w.reader, ReplyStep(w);
    if v != w {
      ReplyShape(w);
      RepliesRight(r.batch, r.entries, r.results);
      assert |Replies(r.entries, ResultsOf(r.results), 0)| == |r.results|;
      forall t | 0 <= t < |w.turns| && w.turns[t].phase.Paused? ensures InHand(v.reader, t) {
        assert InHand(r, t) && Accepted(t) in r.results;
        TurnAck.StartsAreAccepted(r.results, t);
      }
    }
  }

  lemma StartInHand(w: World)
    requires PausedInHand(w) && w.reader.Starting?
    ensures PausedInHand(StartStep(w))
  {
    var starts := w.reader.starts;
    assert starts != [] ==> starts == [starts[0]] + starts[1..];
  }

  lemma ReaderInHand(w: World, step: Step)
    requires PausedInHand(w) && ChannelsSound(w)
    ensures PausedInHand(ReaderStep(w, step))
  {
    match w.reader
    case Ready =>
    case Starting(_, _) => if step.Start? { StartInHand(w); }
    case Busy(_, _, _, _, _, _, _) =>
      match step {
        case Handle(action) => HandleInHand(w, action);
        case Proceed => ProceedInHand(w);
        case TimeOut => MoreInHand(w, TimeOutStep(w));
        case Resolve => ResolveInHand(w);
        case SendReply => ReplyInHand(w);
        case _ =>
      }
  }

  // Whenever the reader is ready for another line, no task is left paused: every
  // accepted prompt has had its start signal sent or dropped. In particular the
  // branch of `handle_batch` that would forget signals is never taken.
  lemma {:induction false} NoTaskLeftPaused(steps: seq<Step>)
    ensures PausedInHand(Run(INITIAL, steps))
    ensures Run(INITIAL, steps).reader.Ready? ==>
      forall t :: 0 <= t < |Run(INITIAL, steps).turns| ==> !Run(INITIAL, steps).turns[t].phase.Paused?
    decreases |steps|
  {
    if steps != [] {
      var front, last := steps[..|steps| - 1], steps[|steps| - 1];
      var w := Run(INITIAL, front);
      NoTaskLeftPaused(front);
      if !IsTaskStep(last) {
        RunKeepsChannels(front);
        ReaderInHand(w, last);
      } else if last.t < |w.turns| {
        TaskShape(w, last, last.t);
        TaskPhases(w, last, last.t);
      }
    }
  }
}
