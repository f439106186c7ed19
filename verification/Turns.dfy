/** The ACP turn protocol (`runtime.rs`, `session.rs`): one sequential reader and
    any number of prompt tasks share each session's turn slot and abort flag, the
    table of cancellable requests and one output queue. A step is one
    lock-protected region or one channel operation; a run is any list of steps,
    and a step that cannot be taken changes nothing. */
module Turns {
  import opened Wrappers
  import opened RequestIds
  import opened Jsonrpc
  import U = UpdateMapper

  // The turn slot. The handle in it holds only the flag; the number of the claim
  // that put it there is history.
  datatype Slot = Free | Claimed(turn: nat, cancelRequested: bool)
  {
    predicate Cancelled() { Claimed? && cancelRequested }

    function Marked(): Slot { if Claimed? then this.(cancelRequested := true) else this }
  }

  // A session object. Opening a session id anew makes a new object; tasks of the
  // old one go on using theirs.
  datatype Session = Session(sid: string, structuredBrief: bool, slot: Slot, aborted: bool)

  datatype Phase =
    | Converting                 // slot claimed, no task yet
    | Unconverted                // the prompt was refused after the claim
    | Paused                     // the task waits for its start signal
    | Signalled
    | Dropped                    // the start signal's sender is gone
    | Woken
    | Announced                  // sent "running"
    | Polling                    // about to ask the stream for a message
    | ResultRead(result: U.TurnResult, cancelled: bool)
    | Sending(outbox: seq<U.Update>)
    | Ended(cancelled: bool)     // the stream is over
    | Leaving                    // about to clear the slot
    | Done(ran: bool)

  // `results` counts the results seen; the task itself keeps only whether there
  // was one.
  datatype Turn = Turn(session: nat, phase: Phase, mapper: U.State, results: nat)

  // What a request or notification asks for, once its method and parameters have
  // been read. `archive` is the outcome of archiving a deleted session.
  datatype Action =
    | Prompt(sid: string, convertible: bool)
    | Open(sid: string, structuredBrief: bool, updates: seq<U.Update>, result: Result<Json, Error>)
    | Close(sid: string, archive: Option<Result<Json, Error>>)
    | Serve(sid: string, updates: seq<U.Update>, result: Result<Json, Error>)
    | CancelRequest(id: RequestId)
    | CancelSession(sid: string)
    | Nothing

  // The answer to a request; `turn` is history.
  datatype Answer = Plain(result: Result<Json, Error>) | Accepted(turn: nat) | Withdrawn(turn: nat)

  // One per request of the frame: where it is, and its cancel channel.
  datatype Slip = Slip(at: nat, id: RequestId, channel: nat)

  datatype Work =
    | NoWork
    | ConvertingPrompt(turn: nat, convertible: bool)
    | Publishing(sid: string, updates: seq<U.Update>, result: Result<Json, Error>)
    | AbortingTurn(session: nat)
    | ClosingAbort(session: nat, archive: Option<Result<Json, Error>>, hadTurn: bool)
    | ClosingWait(session: nat, archive: Option<Result<Json, Error>>)
    | ClosingNotify(session: nat, archive: Option<Result<Json, Error>>)
    | ClosingRemove(session: nat, archive: Option<Result<Json, Error>>)

  // `actions` are those of the entries handled so far; `answers` holds one per
  // request dispatched, `results` one per answer resolved.
  datatype Reader =
    | Ready
    | Busy(batch: bool, entries: seq<Entry>, actions: seq<Action>, slips: seq<Slip>, work: Work,
           answers: seq<Answer>, results: seq<Answer>)
    | Starting(starts: seq<nat>, forget: Option<RequestId>)

  // `from` is the task that sent an update, if it was not the reader; `answers`
  // is history.
  datatype Frame =
    | Answers(batch: bool, replies: seq<Reply>, answers: seq<Answer>)
    | Notice(from: Option<nat>, sid: string, update: U.Update)

  // `received` is history.
  datatype World = World(
    sessions: seq<Session>,
    directory: map<string, nat>,
    turns: seq<Turn>,
    pending: map<RequestId, nat>,
    cancelled: set<nat>,
    nextChannel: nat,
    reader: Reader,
    sink: seq<Frame>,
    received: seq<Line>)

  const INITIAL := World([], map[], [], map[], {}, 0, Ready, [], [])

  datatype Step =
    | Read(line: Line)
    | Handle(action: Action)
    | Proceed
    | TimeOut
    | Resolve
    | SendReply
    | Start
    | Wake(t: nat)
    | Announce(t: nat)
    | ResetAbort(t: nat)
    | Poll(t: nat, msg: U.SdkMessage)
    | MapRead(t: nat)
    | Emit(t: nat)
    | EndStream(t: nat)
    | SendIdle(t: nat)
    | Leave(t: nat)
    | Extra(t: nat, update: U.Update)

  const OK_RESPONSE: Json := JObj(map[])
  const NOT_FOUND := Error(-32002, "Resource not found", None)
  const BUSY := Error(-32602, "Invalid params", Some(JStr("session already has an active turn")))
  const BAD_PROMPT := Error(-32602, "Invalid params", Some(JStr("prompt cannot be converted")))
  const REQUEST_CANCELLED := Error(-32800, "Request cancelled", None)

  function ResultOf(answer: Answer): Result<Json, Error> {
    match answer
    case Plain(result) => result
    case Accepted(_) => Ok(OK_RESPONSE)
    case Withdrawn(_) => Err(REQUEST_CANCELLED)
  }

  function ResultsOf(answers: seq<Answer>): seq<Result<Json, Error>> {
    seq(|answers|, k requires 0 <= k < |answers| => ResultOf(answers[k]))
  }

  // The accepted turns among the answers, in order.
  function StartsOf(answers: seq<Answer>): seq<nat> {
    if answers == [] then []
    else StartsOf(answers[..|answers| - 1])
         + (if answers[|answers| - 1].Accepted? then [answers[|answers| - 1].turn] else [])
  }

  // -------------------------------------------------------------- small updates

  function SlotOf(w: World, s: nat): Slot {
    if s < |w.sessions| then w.sessions[s].slot else Free
  }

  function SetSlot(w: World, s: nat, slot: Slot): World {
    if s < |w.sessions| then w.(sessions := w.sessions[s := w.sessions[s].(slot := slot)]) else w
  }

  function SetAborted(w: World, s: nat, aborted: bool): World {
    if s < |w.sessions| then w.(sessions := w.sessions[s := w.sessions[s].(aborted := aborted)]) else w
  }

  function SetPhase(w: World, t: nat, phase: Phase): World
    requires t < |w.turns|
  {
    w.(turns := w.turns[t := w.turns[t].(phase := phase)])
  }

  function Sent(w: World, frame: Frame): World { w.(sink := w.sink + [frame]) }

  function TellFrom(w: World, t: nat, update: U.Update): World
    requires t < |w.turns|
  {
    var s := w.turns[t].session;
    Sent(w, Notice(Some(t), if s < |w.sessions| then w.sessions[s].sid else "", update))
  }

  function Answered(w: World, answer: Answer): World
    requires w.reader.Busy?
  {
    w.(reader := w.reader.(work := NoWork, answers := w.reader.answers + [answer]))
  }

  function Working(w: World, work: Work): World
    requires w.reader.Busy?
  {
    w.(reader := w.reader.(work := work))
  }

  // --------------------------------------------------------------------- reader

  function Taken(w: World, frame: Result<Option<Message>, Error>): World {
    match frame
    case Err(e) => Sent(w, Answers(false, [Jsonrpc.Reply(Null, Err(e))], [Plain(Err(e))]))
    case Ok(None) => w
    case Ok(Some(Single(entry))) => w.(reader := Busy(false, [entry], [], [], NoWork, [], []))
    case Ok(Some(Batch(entries))) => w.(reader := Busy(true, entries, [], [], NoWork, [], []))
  }

  function ReadStep(w: World, line: Line): World {
    Taken(w.(received := w.received + [line]), FrameOf(line))
  }

  predicate Suits(entry: Entry, action: Action) {
    match entry
    case Request(_, _, _) => action.Prompt? || action.Open? || action.Close? || action.Serve?
    case Notification(_, _) => action.CancelRequest? || action.CancelSession? || action.Nothing?
    case Response(_, _, _) => action.Nothing?
  }

  // `handle_session_prompt` up to the claim of the slot.
  function Claim(w: World, sid: string, convertible: bool): World
    requires w.reader.Busy?
  {
    if sid !in w.directory then Answered(w, Plain(Err(NOT_FOUND)))
    else
      var s, t := w.directory[sid], |w.turns|;
      if SlotOf(w, s).Claimed? then Answered(w, Plain(Err(BUSY)))
      else
        Working(SetSlot(w, s, Claimed(t, false)), ConvertingPrompt(t, convertible)).(
        turns := w.turns + [Turn(s, Converting, U.FRESH, 0)])
  }

  function Opened(w: World, action: Action): World
    requires w.reader.Busy? && action.Open?
  {
    Working(w, Publishing(action.sid, action.updates, action.result)).(
      sessions := w.sessions + [Session(action.sid, action.structuredBrief, Free, false)],
      directory := w.directory[action.sid := |w.sessions|])
  }

  function CloseResult(found: bool, archive: Option<Result<Json, Error>>): Result<Json, Error> {
    if archive.Some? then archive.value else if found then Ok(OK_RESPONSE) else Err(NOT_FOUND)
  }

  function CloseBegun(w: World, sid: string, archive: Option<Result<Json, Error>>): World
    requires w.reader.Busy?
  {
    if sid !in w.directory then Answered(w, Plain(CloseResult(false, archive)))
    else
      var s := w.directory[sid];
      Working(SetSlot(w, s, SlotOf(w, s).Marked()), ClosingAbort(s, archive, SlotOf(w, s).Claimed?))
  }

  function Dispatched(w: World, action: Action): World
    requires w.reader.Busy?
  {
    match action
    case Prompt(sid, convertible) => Claim(w, sid, convertible)
    case Open(_, _, _, _) => Opened(w, action)
    case Close(sid, archive) => CloseBegun(w, sid, archive)
    case Serve(sid, updates, result) => Working(w, Publishing(sid, updates, result))
    case _ => w
  }

  function Notified(w: World, action: Action): World
    requires w.reader.Busy?
  {
    match action
    case CancelRequest(id) =>
      if id in w.pending then w.(pending := w.pending - {id}, cancelled := w.cancelled + {w.pending[id]}) else w
    case CancelSession(sid) =>
      if sid in w.directory then
        var s := w.directory[sid];
        Working(SetSlot(w, s, SlotOf(w, s).Marked()), AbortingTurn(s))
      else w
    case _ => w
  }

  // The request's cancel channel goes into the table before it is dispatched.
  function Registered(w: World, id: RequestId): World
    requires w.reader.Busy? && w.reader.actions != []
  {
    w.(pending := w.pending[id := w.nextChannel], nextChannel := w.nextChannel + 1,
       reader := w.reader.(slips := w.reader.slips + [Slip(|w.reader.actions| - 1, id, w.nextChannel)]))
  }

  function HandleStep(w: World, action: Action): World
    requires w.reader.Busy?
  {
    var r := w.reader;
    if r.work != NoWork || |r.actions| >= |r.entries| || !Suits(r.entries[|r.actions|], action) then w
    else
      var v := w.(reader := r.(actions := r.actions + [action]));
      match r.entries[|r.actions|]
      case Request(id, _, _) => Dispatched(Registered(v, id), action)
      case Notification(_, _) => Notified(v, action)
      case Response(_, _, _) => v
  }

  function Convert(w: World): World
    requires w.reader.Busy? && w.reader.work.ConvertingPrompt?
  {
    var t := w.reader.work.turn;
    if t >= |w.turns| || !w.turns[t].phase.Converting? then w
    else if w.reader.work.convertible then Answered(SetPhase(w, t, Paused), Accepted(t))
    else Answered(SetPhase(w, t, Unconverted), Plain(Err(BAD_PROMPT)))
  }

  function Publish(w: World): World
    requires w.reader.Busy? && w.reader.work.Publishing?
  {
    var updates := w.reader.work.updates;
    if updates == [] then Answered(w, Plain(w.reader.work.result))
    else Working(Sent(w, Notice(None, w.reader.work.sid, updates[0])), w.reader.work.(updates := updates[1..]))
  }

  // `close_session` after it has marked the turn: what it does next, and then
  // where it stands. A timeout is a step of its own.
  function CloseEffect(w: World, work: Work): World {
    match work
    case ClosingAbort(s, _, _) => SetAborted(w, s, true)
    case ClosingNotify(s, _) => Sent(w, Notice(None, SidOf(w, s), U.Idle(U.Cancelled)))
    case ClosingRemove(s, _) => w.(directory := w.directory - {SidOf(w, s)})
    case _ => w
  }

  function CloseNext(w: World, work: Work): Work {
    match work
    case ClosingAbort(s, archive, hadTurn) => if hadTurn then ClosingWait(s, archive) else ClosingRemove(s, archive)
    case ClosingWait(s, archive) => if SlotOf(w, s).Free? then ClosingRemove(s, archive) else work
    case ClosingNotify(s, archive) => ClosingRemove(s, archive)
    case _ => NoWork
  }

  predicate Closing(work: Work) {
    work.ClosingAbort? || work.ClosingWait? || work.ClosingNotify? || work.ClosingRemove?
  }

  function CloseOn(w: World): World
    requires w.reader.Busy? && Closing(w.reader.work)
  {
    var r := w.reader;
    CloseEffect(w, r.work).(
    reader := r.(work := CloseNext(w, r.work),
                 answers := if r.work.ClosingRemove? then r.answers + [Plain(CloseResult(true, r.work.archive))]
                            else r.answers))
  }

  function ProceedStep(w: World): World
    requires w.reader.Busy?
  {
    match w.reader.work
    case ConvertingPrompt(_, _) => Convert(w)
    case Publishing(_, _, _) => Publish(w)
    case AbortingTurn(s) => Working(SetAborted(w, s, true), NoWork)
    case NoWork => w
    case _ => CloseOn(w)
  }

  function SidOf(w: World, s: nat): string { if s < |w.sessions| then w.sessions[s].sid else "" }

  // `close_session` gave up waiting: it clears the slot itself.
  function TimeOutStep(w: World): World
    requires w.reader.Busy?
  {
    if w.reader.work.ClosingWait? then
      Working(SetSlot(w, w.reader.work.session, Free), ClosingNotify(w.reader.work.session, w.reader.work.archive))
    else w
  }

  predicate Handled(r: Reader) {
    r.Busy? && r.work == NoWork && |r.actions| == |r.entries|
  }

  // Whether the next outcome to resolve is cancelled before its task starts.
  predicate WithdrawsNext(w: World) {
    && Handled(w.reader) && |w.reader.results| < |w.reader.answers| <= |w.reader.slips|
    && w.reader.answers[|w.reader.results|].Accepted?
    && w.reader.slips[|w.reader.results|].channel in w.cancelled
  }

  // `cancel_before_start`: clear the slot and drop the start sender, which only
  // the paused task could notice.
  function Withdraw(w: World, t: nat): World {
    if t < |w.turns| && w.turns[t].phase.Paused? then SetPhase(SetSlot(w, w.turns[t].session, Free), t, Dropped) else w
  }

  function ResolveStep(w: World): World
    requires w.reader.Busy?
  {
    var r := w.reader;
    var k := |r.results|;
    if !Handled(r) || |r.slips| != |r.answers| || k >= |r.answers| then w
    else
      var v := if r.batch then w.(pending := w.pending - {r.slips[k].id}) else w;
      if WithdrawsNext(w) then
        var t := r.answers[k].turn;
        Withdraw(v, t).(reader := r.(results := r.results + [Withdrawn(t)]))
      else v.(reader := r.(results := r.results + [r.answers[k]]))
  }

  function ReplyStep(w: World): World
    requires w.reader.Busy?
  {
    var r := w.reader;
    if !Handled(r) || |r.results| != |r.answers| then w
    else
      var replies := Replies(r.entries, ResultsOf(r.results), 0);
      if replies == [] then w.(reader := Ready)
      else
        Sent(w, Answers(r.batch, replies, r.results)).(
        reader := Starting(StartsOf(r.results), if r.batch then None else Some(replies[0].id)))
  }

  // Only a task that still waits for its start hears the signal.
  function Signal(w: World, t: nat): World {
    if t < |w.turns| && w.turns[t].phase.Paused? then SetPhase(w, t, Signalled) else w
  }

  function StartStep(w: World): World
    requires w.reader.Starting?
  {
    var starts := w.reader.starts;
    if starts == [] then
      w.(reader := Ready, pending := if w.reader.forget.Some? then w.pending - {w.reader.forget.value} else w.pending)
    else
      Signal(w.(reader := w.reader.(starts := starts[1..])), starts[0])
  }

  function ReaderStep(w: World, step: Step): World {
    match w.reader
    case Ready => if step.Read? then ReadStep(w, step.line) else w
    case Starting(_, _) => if step.Start? then StartStep(w) else w
    case Busy(_, _, _, _, _, _, _) =>
      match step
      case Handle(action) => HandleStep(w, action)
      case Proceed => ProceedStep(w)
      case TimeOut => TimeOutStep(w)
      case Resolve => ResolveStep(w)
      case SendReply => ReplyStep(w)
      case _ => w
  }

  // ---------------------------------------------------------------------- tasks

  // A task that has been woken to run may publish, and so may the engine and the
  // progress callbacks on its behalf, even after it is done.
  predicate HasRun(phase: Phase) {
    phase.Woken? || phase.Announced? || phase.Polling? || phase.ResultRead? || phase.Sending? || phase.Ended?
    || phase.Leaving? || phase == Done(true)
  }

  function PollStep(w: World, t: nat, msg: U.SdkMessage): World
    requires t < |w.turns|
  {
    var turn := w.turns[t];
    if msg.Result? then
      w.(turns := w.turns[t := turn.(results := turn.results + 1,
                                     phase := ResultRead(msg.result, SlotOf(w, turn.session).Cancelled()))])
    else
      var brief := turn.session < |w.sessions| && w.sessions[turn.session].structuredBrief;
      var mapped := U.MapMessage(turn.mapper, msg, brief);
      w.(turns := w.turns[t := turn.(mapper := mapped.1, phase := Sending(mapped.0))])
  }

  function TaskStep(w: World, step: Step, t: nat): World
    requires t < |w.turns|
  {
    var turn := w.turns[t];
    var s := turn.session;
    match step
    case Wake(_) =>
      if turn.phase.Signalled? then SetPhase(w, t, Woken)
      else if turn.phase.Dropped? then SetPhase(SetSlot(w, s, Free), t, Done(false))
      else w
    case Announce(_) =>
      if turn.phase.Woken? then SetPhase(TellFrom(w, t, U.Running), t, Announced) else w
    case ResetAbort(_) =>
      if turn.phase.Announced? then SetPhase(SetAborted(w, s, false), t, Polling) else w
    case Poll(_, msg) =>
      if turn.phase.Polling? then PollStep(w, t, msg) else w
    case MapRead(_) =>
      if turn.phase.ResultRead? then
        var aborted := s < |w.sessions| && w.sessions[s].aborted;
        SetPhase(w, t, Sending(
                   U.MapResult(turn.phase.result, if turn.phase.cancelled || aborted then Some(U.Cancelled) else None)))
      else w
    case Emit(_) =>
      if !turn.phase.Sending? then w
      else if turn.phase.outbox == [] then SetPhase(w, t, Polling)
      else SetPhase(TellFrom(w, t, turn.phase.outbox[0]), t, Sending(turn.phase.outbox[1..]))
    case EndStream(_) =>
      if turn.phase.Polling? then SetPhase(w, t, Ended(SlotOf(w, s).Cancelled())) else w
    case SendIdle(_) =>
      if !turn.phase.Ended? then w
      else if turn.phase.cancelled && turn.results == 0 then
        SetPhase(TellFrom(w, t, U.Idle(U.Cancelled)), t, Leaving)
      else SetPhase(w, t, Leaving)
    case Leave(_) =>
      if turn.phase.Leaving? then SetPhase(SetSlot(w, s, Free), t, Done(true)) else w
    case Extra(_, update) =>
      if HasRun(turn.phase) && !update.Idle? then TellFrom(w, t, update) else w
    case _ => w
  }

  predicate IsTaskStep(step: Step) {
    step.Wake? || step.Announce? || step.ResetAbort? || step.Poll? || step.MapRead? || step.Emit? || step.EndStream?
    || step.SendIdle? || step.Leave? || step.Extra?
  }

  function Next(w: World, step: Step): World {
    if !IsTaskStep(step) then ReaderStep(w, step)
    else if step.t < |w.turns| then TaskStep(w, step, step.t)
    else w
  }

  function Run(w: World, steps: seq<Step>): World
    decreases |steps|
  {
    if steps == [] then w else Next(Run(w, steps[..|steps| - 1]), steps[|steps| - 1])
  }

  lemma {:induction false} RunAppend(w: World, a: seq<Step>, b: seq<Step>)
    ensures Run(w, a + b) == Run(Run(w, a), b)
    decreases |b|
  {
    if b == [] {
      assert a + b == a;
    } else {
      assert (a + b)[..|a + b| - 1] == a + b[..|b| - 1];
      RunAppend(w, a, b[..|b| - 1]);
    }
  }

  lemma RunOneMore(w: World, steps: seq<Step>, step: Step)
    ensures Run(w, steps + [step]) == Next(Run(w, steps), step)
  {
    assert (steps + [step])[..|steps|] == steps;
  }

  lemma RunTwo(w: World, a: Step, b: Step)
    ensures Run(w, [a, b]) == Next(Next(w, a), b)
  {
    RunOneMore(w, [], a);
    RunOneMore(w, [a], b);
    assert [] + [a] == [a] && [a] + [b] == [a, b];
  }

  // ------------------------------------------------- what one task's step touches

  // Its own turn, its own session's slot and flag, and at most one update of its
  // own, once it runs.
  ghost predicate TaskTouches(w: World, v: World, t: nat)
    requires t < |w.turns|
  {
    var s := w.turns[t].session;
    && |v.turns| == |w.turns| && v.turns == w.turns[t := v.turns[t]] && v.turns[t].session == s
    && (v.sessions == w.sessions
        || (s < |w.sessions| == |v.sessions|
            && v.sessions == w.sessions[s := w.sessions[s].(slot := v.sessions[s].slot,
              aborted := v.sessions[s].aborted)]))
    && v.directory == w.directory && v.pending == w.pending && v.cancelled == w.cancelled
    && v.nextChannel == w.nextChannel && v.reader == w.reader && v.received == w.received
    && (v.sink == w.sink
        || (|v.sink| == |w.sink| + 1 && v.sink == w.sink + [v.sink[|w.sink|]] && HasRun(w.turns[t].phase)
            && v.sink[|w.sink|].Notice? && v.sink[|w.sink|].from == Some(t)))
  }

  predicate Tells(step: Step) { step.Announce? || step.Emit? || step.SendIdle? || step.Extra? }

  lemma TellingShape(w: World, step: Step, t: nat)
    requires t < |w.turns| && Tells(step)
    ensures TaskTouches(w, TaskStep(w, step, t), t)
  {
    assert TaskStep(w, step, t).sessions == w.sessions;
  }

  lemma SilentShape(w: World, step: Step, t: nat)
    requires t < |w.turns| && !Tells(step) && !step.Poll?
    ensures TaskTouches(w, TaskStep(w, step, t), t)
  {
    assert TaskStep(w, step, t).sink == w.sink;
  }

  lemma TaskShape(w: World, step: Step, t: nat)
    requires t < |w.turns|
    ensures TaskTouches(w, TaskStep(w, step, t), t)
  {
    if Tells(step) {
      TellingShape(w, step, t);
    } else if !step.Poll? {
      SilentShape(w, step, t);
    }
  }

  // A task never comes back from being gone, and starts to run only when woken.
  lemma TaskPhases(w: World, step: Step, t: nat)
    requires t < |w.turns|
    ensures var p, q := w.turns[t].phase, TaskStep(w, step, t).turns[t].phase;
      && (HasRun(p) ==> HasRun(q))
      && (HasRun(q) ==> HasRun(p) || p.Signalled?)
      && (p.Dropped? ==> q.Dropped? || q == Done(false))
      && (p == Done(false) || p.Paused? || p.Converting? || p.Unconverted? ==> q == p)
      && (q.Paused? || q.Converting? || q.Unconverted? || q.Dropped? || q.Signalled? ==> q == p)
      && (q == Done(false) ==> p.Dropped? || q == p)
  {
  }

  // --------------------------------------------- what a step of the reader touches

  ghost predicate SameSessions(w: World, v: World) {
    v.turns == w.turns && v.sessions == w.sessions && v.directory == w.directory
  }

  // The slot of `s` was claimed for a new turn, about to be converted.
  ghost predicate Claims(w: World, v: World, s: nat) {
    && s < |w.sessions| && w.sessions[s].slot.Free?
    && v.sessions == w.sessions[s := w.sessions[s].(slot := Claimed(|w.turns|, false))]
    && v.turns == w.turns + [Turn(s, Converting, U.FRESH, 0)] && v.directory == w.directory
    && v.reader.Busy? && v.reader.work.ConvertingPrompt? && v.reader.work.turn == |w.turns|
  }

  ghost predicate Opens(w: World, v: World, sid: string) {
    && v.turns == w.turns && v.directory == w.directory[sid := |w.sessions|]
    && |v.sessions| == |w.sessions| + 1 && v.sessions == w.sessions + [v.sessions[|w.sessions|]]
    && v.sessions[|w.sessions|].sid == sid && v.sessions[|w.sessions|].slot.Free?
  }

  ghost predicate Marks(w: World, v: World, s: nat) {
    && v.turns == w.turns && v.directory == w.directory && s < |w.sessions|
    && v.sessions == w.sessions[s := w.sessions[s].(slot := w.sessions[s].slot.Marked())]
  }

  lemma HandleShape(w: World, action: Action)
    requires w.reader.Busy? && HandleStep(w, action) != w
    requires forall sid :: sid in w.directory ==> w.directory[sid] < |w.sessions|
    ensures var v := HandleStep(w, action);
      match action
      case Prompt(sid, _) =>
        (SameSessions(w, v) && !v.reader.work.ConvertingPrompt?)
          || (sid in w.directory && Claims(w, v, w.directory[sid]))
      case Open(sid, _, _, _) => Opens(w, v, sid) && v.reader.work.Publishing?
      case Close(sid, _) =>
        if sid in w.directory then Marks(w, v, w.directory[sid]) && v.reader.work.ClosingAbort?
          && v.reader.work.session == w.directory[sid]
        else SameSessions(w, v) && v.reader.work.NoWork?
      case CancelSession(sid) =>
        if sid in w.directory then Marks(w, v, w.directory[sid]) && v.reader.work == AbortingTurn(w.directory[sid])
        else SameSessions(w, v) && v.reader.work.NoWork?
      case Serve(_, _, _) => SameSessions(w, v) && v.reader.work.Publishing?
      case _ => SameSessions(w, v) && v.reader.work.NoWork?
    ensures w.reader.work.NoWork? && HandleStep(w, action).reader.Busy?
  {
    var r := w.reader;
    assert r.work == NoWork && Suits(r.entries[|r.actions|], action);
  }

  // Publishing, aborting and closing claim nothing and free nothing.
  ghost predicate SameSlots(w: World, v: World) {
    && v.turns == w.turns && |v.sessions| == |w.sessions|
    && forall s :: 0 <= s < |w.sessions| ==> v.sessions[s] == w.sessions[s].(aborted := v.sessions[s].aborted)
  }

  lemma CloseShape(w: World)
    requires w.reader.Busy? && Closing(w.reader.work)
    ensures var v := CloseOn(w);
      && SameSlots(w, v) && v.reader.Busy? && v.reader.work == CloseNext(w, w.reader.work)
      && v.directory == (if w.reader.work.ClosingRemove? then w.directory - {SidOf(w, w.reader.work.session)}
        else w.directory)
  {
  }

  lemma ProceedShape(w: World)
    requires w.reader.Busy? && !w.reader.work.ConvertingPrompt? && !Closing(w.reader.work)
    ensures var v := ProceedStep(w);
      SameSlots(w, v) && v.directory == w.directory && v.reader.Busy?
      && (v.reader.work.NoWork? || v.reader.work.Publishing?)
  {
  }
}
