/** What the reader itself says: the updates it publishes for a request, and the
    answer it gives to each kind of request. */
module TurnServes {
  import opened Wrappers
  import opened RequestIds
  import opened Jsonrpc
  import opened Turns
  import opened TurnExclusivity
  import opened TurnAnswers
  import TurnSeen
  import TurnStreams
  import U = UpdateMapper

  // ------------------------------------------------------- what it publishes

  type Told = (string, U.Update)

  function ReaderTold(frame: Frame): seq<Told> {
    if frame.Notice? && frame.from == None then [(frame.sid, frame.update)] else []
  }

  function ToldBy(sink: seq<Frame>): seq<Told> {
    if sink == [] then [] else ToldBy(sink[..|sink| - 1]) + ReaderTold(sink[|sink| - 1])
  }

  function ForSession(sid: string, updates: seq<U.Update>): seq<Told> {
    seq(|updates|, i requires 0 <= i < |updates| => (sid, updates[i]))
  }

  // The reader, done with the entry before, takes up a request as this action.
  predicate TakesUp(w: World, action: Action) {
    && w.reader.Busy? && w.reader.work.NoWork? && |w.reader.actions| < |w.reader.entries|
    && w.reader.entries[|w.reader.actions|].Request? && Suits(w.reader.entries[|w.reader.actions|], action)
  }

  // The request calls for updates.
  predicate CallsForUpdates(w: World, step: Step) {
    step.Handle? && TakesUp(w, step.action) && (step.action.Open? || step.action.Serve?)
  }

  // What a step gives the reader to tell: the updates its request calls for, or
  // that a close gave up.
  function ToTellNow(w: World, step: Step): seq<Told> {
    if CallsForUpdates(w, step) then ForSession(step.action.sid, step.action.updates)
    else if TurnSeen.GivesUp(w, step) then [(SidOf(w, w.reader.work.session), U.Idle(U.Cancelled))]
    else []
  }

  function ToTell(steps: seq<Step>): seq<Told> {
    if steps == [] then []
    else ToTell(steps[..|steps| - 1]) + ToTellNow(Run(INITIAL, steps[..|steps| - 1]), steps[|steps| - 1])
  }

  function StillToTell(r: Reader): seq<Told> {
    if r.Busy? && r.work.Publishing? then ForSession(r.work.sid, r.work.updates) else []
  }

  ghost predicate Telling(w: World, toTell: seq<Told>) { ToldBy(w.sink) + StillToTell(w.reader) == toTell }

  lemma ToldOneMore(sink: seq<Frame>, frame: Frame)
    ensures ToldBy(sink + [frame]) == ToldBy(sink) + ReaderTold(frame)
  {
    assert (sink + [frame])[..|sink|] == sink;
  }

  // Nothing is told, and nothing is to be told.
  lemma QuietTelling(w: World, v: World, toTell: seq<Told>)
    requires Telling(w, toTell) && StillToTell(v.reader) == StillToTell(w.reader)
    requires v.sink == w.sink || (|v.sink| == |w.sink| + 1 && v.sink == w.sink + [v.sink[|w.sink|]]
      && ReaderTold(v.sink[|w.sink|]) == [])
    ensures Telling(v, toTell + [])
  {
    if v.sink != w.sink {
      ToldOneMore(w.sink, v.sink[|w.sink|]);
      assert ToldBy(w.sink) + [] == ToldBy(w.sink);
    }
    assert toTell + [] == toTell;
  }

  lemma TaskTelling(w: World, step: Step, t: nat, toTell: seq<Told>)
    requires Telling(w, toTell) && t < |w.turns|
    ensures Telling(TaskStep(w, step, t), toTell + [])
  {
    TaskShape(w, step, t);
    QuietTelling(w, TaskStep(w, step, t), toTell);
  }

  lemma HandleTelling(w: World, action: Action, toTell: seq<Told>)
    requires Registry(w) && w.reader.Busy? && Telling(w, toTell)
    ensures Telling(HandleStep(w, action), toTell + ToTellNow(w, Handle(action)))
  {
    var v := HandleStep(w, action);
    if CallsForUpdates(w, Handle(action)) {
      HandleSlips(w, action);
      TakesUpWork(w, action);
      assert ToldBy(w.sink) + [] == ToldBy(w.sink);
    } else {
      if v != w { HandleSlips(w, action); HandleShape(w, action); }
      QuietTelling(w, v, toTell);
    }
  }

  lemma TakesUpWork(w: World, action: Action)
    requires CallsForUpdates(w, Handle(action))
    ensures HandleStep(w, action).reader.Busy?
    ensures HandleStep(w, action).reader.work == Publishing(action.sid, action.updates, action.result)
    ensures HandleStep(w, action) != w
  {
  }

  lemma PublishTelling(w: World, toTell: seq<Told>)
    requires w.reader.Busy? && w.reader.work.Publishing? && Telling(w, toTell)
    ensures Telling(Publish(w), toTell + [])
  {
    var sid, updates := w.reader.work.sid, w.reader.work.updates;
    assert toTell + [] == toTell;
    if updates == [] {
      assert ForSession(sid, updates) == [];
    } else {
      ToldOneMore(w.sink, Notice(None, sid, updates[0]));
      FirstTold(ToldBy(w.sink), sid, updates);
    }
  }

  lemma FirstTold(told: seq<Told>, sid: string, updates: seq<U.Update>)
    requires updates != []
    ensures told + ForSession(sid, updates) == (told + [(sid, updates[0])]) + ForSession(sid, updates[1..])
  {
    assert ForSession(sid, updates) == [(sid, updates[0])] + ForSession(sid, updates[1..]);
  }

  lemma CloseTelling(w: World, toTell: seq<Told>)
    requires w.reader.Busy? && Closing(w.reader.work) && Telling(w, toTell)
    ensures Telling(CloseOn(w), toTell + ToTellNow(w, Proceed))
  {
    if w.reader.work.ClosingNotify? {
      ToldOneMore(w.sink, Notice(None, SidOf(w, w.reader.work.session), U.Idle(U.Cancelled)));
      assert ToldBy(w.sink) + [] == ToldBy(w.sink);
    } else {
      QuietTelling(w, CloseOn(w), toTell);
    }
  }

  lemma ProceedTelling(w: World, toTell: seq<Told>)
    requires w.reader.Busy? && Telling(w, toTell)
    ensures Telling(ProceedStep(w), toTell + ToTellNow(w, Proceed))
  {
    if Closing(w.reader.work) {
      CloseTelling(w, toTell);
    } else if w.reader.work.Publishing? {
      PublishTelling(w, toTell);
    } else {
      QuietTelling(w, ProceedStep(w), toTell);
    }
  }

  lemma EdgeTelling(w: World, step: Step, toTell: seq<Told>)
    requires Telling(w, toTell) && !IsTaskStep(step) && (w.reader.Busy? ==> !step.Handle? && !step.Proceed?)
    ensures Telling(ReaderStep(w, step), toTell + [])
  {
    EdgeQuiet(w, step);
    QuietTelling(w, ReaderStep(w, step), toTell);
  }

  lemma EdgeQuiet(w: World, step: Step)
    requires !IsTaskStep(step) && (w.reader.Busy? ==> !step.Handle? && !step.Proceed?)
    ensures var v := ReaderStep(w, step);
      && StillToTell(v.reader) == StillToTell(w.reader)
      && (v.sink == w.sink || (|v.sink| == |w.sink| + 1 && v.sink == w.sink + [v.sink[|w.sink|]]
          && ReaderTold(v.sink[|w.sink|]) == []))
  {
    match w.reader
    case Ready =>
    case Starting(_, _) =>
    case Busy(_, _, _, _, _, _, _) => if step.Resolve? { ResolveQuietly(w); }
  }

  lemma ResolveQuietly(w: World)
    requires w.reader.Busy?
    ensures ResolveStep(w).sink == w.sink && StillToTell(ResolveStep(w).reader) == StillToTell(w.reader)
  {
  }

  lemma StepTelling(w: World, step: Step, toTell: seq<Told>)
    requires Registry(w) && Telling(w, toTell)
    ensures Telling(Next(w, step), toTell + ToTellNow(w, step))
  {
    if IsTaskStep(step) {
      NothingToTell(w, step, toTell);
      if step.t < |w.turns| { TaskTelling(w, step, step.t, toTell); }
    } else {
      ReaderTelling(w, step, toTell);
    }
  }

  lemma NothingToTell(w: World, step: Step, toTell: seq<Told>)
    requires IsTaskStep(step)
    ensures ToTellNow(w, step) == [] && toTell + [] == toTell
  {
  }

  lemma ReaderTelling(w: World, step: Step, toTell: seq<Told>)
    requires Registry(w) && Telling(w, toTell) && !IsTaskStep(step)
    ensures Telling(ReaderStep(w, step), toTell + ToTellNow(w, step))
  {
    if w.reader.Busy? && step.Handle? {
      HandleTelling(w, step.action, toTell);
    } else if w.reader.Busy? && step.Proceed? {
      ProceedTelling(w, toTell);
    } else {
      EdgeTelling(w, step, toTell);
    }
  }

  // The updates the reader puts in the output queue in its own name are exactly
  // those its requests call for, in order and for their sessions, and one for each
  // close that gave up; while it publishes, the rest of the last request's is to
  // come.
  lemma {:induction false} ReaderTellsExactly(steps: seq<Step>)
    ensures var w := Run(INITIAL, steps); ToldBy(w.sink) + StillToTell(w.reader) == ToTell(steps)
  {
    if steps != [] {
      var front, last := steps[..|steps| - 1], steps[|steps| - 1];
      ReaderTellsExactly(front);
      RunKeepsBasic(INITIAL, front);
      StepTelling(Run(INITIAL, front), last, ToTell(front));
    }
  }

  // -------------------------------------------------------- what it answers

  predicate Refuses(answer: Answer, code: int) {
    answer.Plain? && answer.result.Err? && answer.result.error.code == code
  }

  // The answers each kind of request may get: a prompt is accepted, if it converts,
  // or refused as to an unknown session or with invalid parameters; opening and
  // other requests get the result of doing them; a close gets the outcome of
  // archiving, or an empty object, or an unknown session.
  predicate Fits(action: Action, answer: Answer) {
    match action
    case Prompt(_, convertible) =>
      (answer.Accepted? && convertible) || Refuses(answer, -32002) || Refuses(answer, -32602)
    case Open(_, _, _, result) => answer == Plain(result)
    case Serve(_, _, result) => answer == Plain(result)
    case Close(_, archive) =>
      if archive.Some? then answer == Plain(archive.value)
      else answer == Plain(Ok(JObj(map[]))) || Refuses(answer, -32002)
    case _ => false
  }

  // The work a request leaves, until it is answered.
  predicate WorkFits(action: Action, work: Work) {
    match work
    case ConvertingPrompt(_, convertible) => action.Prompt? && action.convertible == convertible
    case Publishing(_, _, result) => (action.Open? || action.Serve?) && action.result == result
    case ClosingAbort(_, archive, _) => action.Close? && action.archive == archive
    case ClosingWait(_, archive) => action.Close? && action.archive == archive
    case ClosingNotify(_, archive) => action.Close? && action.archive == archive
    case ClosingRemove(_, archive) => action.Close? && action.archive == archive
    case _ => false
  }

  ghost predicate AnswerFits(actions: seq<Action>, slips: seq<Slip>, answers: seq<Answer>, k: nat)
    requires k < |answers|
  {
    k < |slips| && slips[k].at < |actions| && Fits(actions[slips[k].at], answers[k])
  }

  ghost predicate AllFit(actions: seq<Action>, slips: seq<Slip>, answers: seq<Answer>) {
    forall k :: 0 <= k < |answers| ==> AnswerFits(actions, slips, answers, k)
  }

  ghost predicate Fitting(r: Reader) {
    r.Busy? ==>
      && AllFit(r.actions, r.slips, r.answers)
      && (Serving(r.work) ==>
           && |r.answers| < |r.slips| && r.slips[|r.answers|].at < |r.actions|
           && WorkFits(r.actions[r.slips[|r.answers|].at], r.work))
  }

  lemma MoreFit(actions: seq<Action>, slips: seq<Slip>, answers: seq<Answer>, action: Action, more: seq<Slip>)
    requires AllFit(actions, slips, answers)
    ensures AllFit(actions + [action], slips + more, answers)
  {
    forall k | 0 <= k < |answers| ensures AnswerFits(actions + [action], slips + more, answers, k) {
      assert AnswerFits(actions, slips, answers, k);
    }
  }

  lemma OneMoreFits(actions: seq<Action>, slips: seq<Slip>, answers: seq<Answer>, answer: Answer)
    requires AllFit(actions, slips, answers) && |answers| < |slips| && slips[|answers|].at < |actions|
    requires Fits(actions[slips[|answers|].at], answer)
    ensures AllFit(actions, slips, answers + [answer])
  {
    forall k | 0 <= k < |answers| + 1 ensures AnswerFits(actions, slips, answers + [answer], k) {
      if k < |answers| { assert AnswerFits(actions, slips, answers, k); }
    }
  }

  // Dispatching a request answers it fittingly, or leaves fitting work.
  lemma DispatchFits(w: World, action: Action)
    requires w.reader.Busy? && (action.Prompt? || action.Open? || action.Close? || action.Serve?)
    ensures var r, d := w.reader, Dispatched(w, action).reader;
      && d.Busy?
      && ((d == r.(work := d.work) && WorkFits(action, d.work) && Serving(d.work))
          || (|d.answers| == |r.answers| + 1 && d == r.(work := NoWork, answers := r.answers + [d.answers[|r.answers|]])
              && Fits(action, d.answers[|r.answers|])))
  {
  }

  lemma HandleFits(w: World, action: Action)
    requires w.reader.Busy? && Counted(w.reader) && Fitting(w.reader)
    ensures Fitting(HandleStep(w, action).reader)
  {
    var r, v := w.reader, HandleStep(w, action);
    if v != w {
      var u := w.(reader := r.(actions := r.actions + [action]));
      match r.entries[|r.actions|]
      case Request(id, _, _) =>
        MoreFit(r.actions, r.slips, r.answers, action, [Slip(|r.actions|, id, w.nextChannel)]);
        DispatchFits(Registered(u, id), action);
        RequestFits(Registered(u, id).reader, v.reader, action);
      case Notification(_, _) =>
        MoreFit(r.actions, r.slips, r.answers, action, []);
        NotifiedSlips(u, action);
        assert r.slips + [] == r.slips;
      case Response(_, _, _) =>
        MoreFit(r.actions, r.slips, r.answers, action, []);
        assert r.slips + [] == r.slips;
    }
  }

  lemma RequestFits(r: Reader, d: Reader, action: Action)
    requires r.Busy? && d.Busy? && AllFit(r.actions, r.slips, r.answers) && |r.answers| < |r.slips|
    requires r.slips[|r.answers|].at < |r.actions| && r.actions[r.slips[|r.answers|].at] == action
    requires (d == r.(work := d.work) && WorkFits(action, d.work))
      || (|d.answers| == |r.answers| + 1 && d == r.(work := NoWork, answers := r.answers + [d.answers[|r.answers|]])
          && Fits(action, d.answers[|r.answers|]))
    ensures Fitting(d)
  {
    if |d.answers| > |r.answers| { OneMoreFits(r.actions, r.slips, r.answers, d.answers[|r.answers|]); }
  }

  // The work goes on fitting the request, or has answered it fittingly.
  ghost predicate GoesOn(r: Reader, d: Reader, action: Action)
    requires r.Busy?
  {
    && d.Busy?
    && ((d == r.(work := d.work) && WorkFits(action, d.work))
        || (|d.answers| == |r.answers| + 1 && d == r.(work := NoWork, answers := r.answers + [d.answers[|r.answers|]])
            && Fits(action, d.answers[|r.answers|])))
  }

  lemma ConvertGoesOn(w: World, action: Action)
    requires w.reader.Busy? && w.reader.work.ConvertingPrompt? && WorkFits(action, w.reader.work)
    ensures GoesOn(w.reader, Convert(w).reader, action)
  {
  }

  lemma PublishGoesOn(w: World, action: Action)
    requires w.reader.Busy? && w.reader.work.Publishing? && WorkFits(action, w.reader.work)
    ensures GoesOn(w.reader, Publish(w).reader, action)
  {
  }

  lemma CloseGoesOn(w: World, action: Action)
    requires w.reader.Busy? && Closing(w.reader.work) && WorkFits(action, w.reader.work)
    ensures GoesOn(w.reader, CloseOn(w).reader, action)
  {
  }

  lemma WorkGoesOn(w: World, action: Action)
    requires w.reader.Busy? && Serving(w.reader.work) && WorkFits(action, w.reader.work)
    ensures GoesOn(w.reader, ProceedStep(w).reader, action)
  {
    match w.reader.work
    case ConvertingPrompt(_, _) => ConvertGoesOn(w, action);
    case Publishing(_, _, _) => PublishGoesOn(w, action);
    case _ => CloseGoesOn(w, action);
  }

  lemma ProceedFits(w: World)
    requires w.reader.Busy? && Fitting(w.reader)
    ensures Fitting(ProceedStep(w).reader)
  {
    var r := w.reader;
    if Serving(r.work) {
      var action := r.actions[r.slips[|r.answers|].at];
      WorkGoesOn(w, action);
      RequestFits(r, ProceedStep(w).reader, action);
    }
  }

  lemma EdgeFits(w: World, step: Step)
    requires Fitting(w.reader) && !IsTaskStep(step) && (w.reader.Busy? ==> !step.Handle? && !step.Proceed?)
    ensures Fitting(ReaderStep(w, step).reader)
  {
  }

  lemma StepFits(w: World, step: Step)
    requires (w.reader.Busy? ==> Counted(w.reader)) && Fitting(w.reader)
    ensures Fitting(Next(w, step).reader)
  {
    if IsTaskStep(step) {
      if step.t < |w.turns| { TaskShape(w, step, step.t); }
    } else if w.reader.Busy? && step.Handle? {
      HandleFits(w, step.action);
    } else if w.reader.Busy? && step.Proceed? {
      ProceedFits(w);
    } else {
      EdgeFits(w, step);
    }
  }

  lemma {:induction false} RunFits(steps: seq<Step>)
    ensures Fitting(Run(INITIAL, steps).reader)
  {
    if steps != [] {
      RunFits(steps[..|steps| - 1]);
      RunKeepsAnswers(steps[..|steps| - 1]);
      StepFits(Run(INITIAL, steps[..|steps| - 1]), steps[|steps| - 1]);
    }
  }

  // Every answer of a run fits the request it answers.
  lemma {:induction false} AnswersFitRequests(steps: seq<Step>, k: nat)
    requires Run(INITIAL, steps).reader.Busy? && k < |Run(INITIAL, steps).reader.answers|
    ensures var r := Run(INITIAL, steps).reader;
      k < |r.slips| && r.slips[k].at < |r.actions| && Fits(r.actions[r.slips[k].at], r.answers[k])
  {
    RunFits(steps);
    var r := Run(INITIAL, steps).reader;
    assert AnswerFits(r.actions, r.slips, r.answers, k);
  }

  // What the client is told of a prompt accepted, or withdrawn before its start:
  // an empty object, or that the request was cancelled.
  lemma PromptResults(t: nat)
    ensures ResultOf(Accepted(t)) == Ok(JObj(map[]))
    ensures ResultOf(Withdrawn(t)).Err? && ResultOf(Withdrawn(t)).error.code == -32800
  {
  }

  // Which answer a prompt gets: an unknown session if its id is not registered,
  // busy if the slot is taken, and otherwise, once converted or not, acceptance of
  // a new turn or invalid parameters.
  lemma PromptDecided(w: World, sid: string, convertible: bool)
    requires Registry(w) && TakesUp(w, Prompt(sid, convertible))
    ensures var v := Next(w, Handle(Prompt(sid, convertible)));
      var u, before := Next(v, Proceed), w.reader.answers;
      && v.reader.Busy? && u.reader.Busy?
      && (if sid !in w.directory then
            |v.reader.answers| == |before| + 1 && Refuses(v.reader.answers[|before|], -32002)
          else if SlotOf(w, w.directory[sid]).Claimed? then
            v.reader.answers == before
              + [Plain(Err(Error(-32602, "Invalid params", Some(JStr("session already has an active turn")))))]
          else if convertible then u.reader.answers == before + [Accepted(|w.turns|)]
          else |u.reader.answers| == |before| + 1 && Refuses(u.reader.answers[|before|], -32602))
  {
    var v := Next(w, Handle(Prompt(sid, convertible)));
    PromptTaken(w, sid, convertible);
    if v.reader.Busy? && v.reader.work.ConvertingPrompt? { ClaimConverted(v); }
  }

  lemma PromptTaken(w: World, sid: string, convertible: bool)
    requires Registry(w) && TakesUp(w, Prompt(sid, convertible))
    ensures var v, before := Next(w, Handle(Prompt(sid, convertible))), w.reader.answers;
      && v.reader.Busy?
      && (if sid !in w.directory then
            v.reader.work.NoWork? && |v.reader.answers| == |before| + 1 && Refuses(v.reader.answers[|before|], -32002)
          else if SlotOf(w, w.directory[sid]).Claimed? then
            v.reader.work.NoWork? && v.reader.answers == before
              + [Plain(Err(Error(-32602, "Invalid params", Some(JStr("session already has an active turn")))))]
          else
            && v.reader.work == ConvertingPrompt(|w.turns|, convertible) && v.reader.answers == before
            && |v.turns| == |w.turns| + 1 && v.turns[|w.turns|].phase.Converting?)
  {
  }

  lemma ClaimConverted(w: World)
    requires w.reader.Busy? && w.reader.work.ConvertingPrompt? && w.reader.work.turn < |w.turns|
    requires w.turns[w.reader.work.turn].phase.Converting?
    ensures var u, before := Next(w, Proceed), w.reader.answers;
      && u.reader.Busy?
      && (if w.reader.work.convertible then u.reader.answers == before + [Accepted(w.reader.work.turn)]
          else |u.reader.answers| == |before| + 1 && Refuses(u.reader.answers[|before|], -32602))
  {
  }

  // --------------------------------------------------------- cancellable requests

  ghost predicate HeldFor(pending: map<RequestId, nat>, slips: seq<Slip>, from: nat) {
    forall id :: id in pending ==> exists k :: from <= k < |slips| && slips[k].id == id
  }

  // Only requests in hand can be cancelled: in a batch those not resolved yet.
  ghost predicate InTable(w: World) {
    match w.reader
    case Ready => w.pending == map[]
    case Starting(_, forget) => forall id :: id in w.pending ==> forget == Some(id)
    case Busy(batch, entries, _, slips, _, _, results) =>
      HeldFor(w.pending, slips, if batch then |results| else 0) && (!batch ==> |entries| == 1)
  }

  lemma ReadTable(w: World, line: Line)
    requires InTable(w) && w.reader.Ready?
    ensures InTable(ReadStep(w, line))
  {
  }

  lemma StartTable(w: World)
    requires InTable(w) && w.reader.Starting?
    ensures InTable(StartStep(w))
  {
    if w.reader.starts == [] {
      assert StartStep(w).pending == map[];
    }
  }

  lemma KeptTable(w: World, v: World)
    requires InTable(w) && w.reader.Busy? && v.reader.Busy? && v.pending.Keys <= w.pending.Keys
    requires v.reader.batch == w.reader.batch && v.reader.entries == w.reader.entries
    requires v.reader.slips == w.reader.slips && v.reader.results == w.reader.results
    ensures InTable(v)
  {
  }

  lemma HandleKeepsTable(w: World, action: Action)
    requires InTable(w) && w.reader.Busy? && Counted(w.reader)
    ensures InTable(HandleStep(w, action))
  {
    var r, v := w.reader, HandleStep(w, action);
    if v != w {
      var u := w.(reader := r.(actions := r.actions + [action]));
      match r.entries[|r.actions|]
      case Request(id, _, _) =>
        DispatchSlips(Registered(u, id), action);
        RegisteredTable(u, id);
        DispatchPending(Registered(u, id), action);
      case Notification(_, _) =>
        NotifiedSlips(u, action);
        KeptTable(w, v);
      case Response(_, _, _) =>
    }
  }

  lemma RegisteredTable(w: World, id: RequestId)
    requires InTable(w) && w.reader.Busy? && w.reader.actions != [] && |w.reader.results| <= |w.reader.slips|
    ensures InTable(Registered(w, id))
  {
    var slips := Registered(w, id).reader.slips;
    assert slips[|w.reader.slips|].id == id;
    var from := if w.reader.batch then |w.reader.results| else 0;
    forall other | other in w.pending ensures exists k :: from <= k < |slips| && slips[k].id == other {
      var k :| from <= k < |w.reader.slips| && w.reader.slips[k].id == other;
      assert slips[k].id == other;
    }
  }

  lemma DispatchPending(w: World, action: Action)
    requires w.reader.Busy? && (action.Prompt? || action.Open? || action.Close? || action.Serve?)
    ensures Dispatched(w, action).pending == w.pending && Dispatched(w, action).reader.Busy?
    ensures Dispatched(w, action).reader.batch == w.reader.batch
  {
  }

  ghost predicate SameTable(w: World, v: World)
    requires w.reader.Busy?
  {
    && v.pending == w.pending && v.reader.Busy? && v.reader.batch == w.reader.batch
    && v.reader.entries == w.reader.entries && v.reader.slips == w.reader.slips && v.reader.results == w.reader.results
  }

  lemma ConvertSameTable(w: World)
    requires w.reader.Busy? && w.reader.work.ConvertingPrompt?
    ensures SameTable(w, Convert(w))
  {
  }

  lemma CloseSameTable(w: World)
    requires w.reader.Busy? && Closing(w.reader.work)
    ensures SameTable(w, CloseOn(w))
  {
  }

  lemma ProceedTable(w: World)
    requires InTable(w) && w.reader.Busy?
    ensures InTable(ProceedStep(w))
  {
    ProceedSameTable(w);
    KeptTable(w, ProceedStep(w));
  }

  lemma ProceedSameTable(w: World)
    requires w.reader.Busy?
    ensures SameTable(w, ProceedStep(w))
  {
    match w.reader.work
    case ConvertingPrompt(_, _) => ConvertSameTable(w);
    case Publishing(_, _, _) => assert SameTable(w, Publish(w));
    case AbortingTurn(s) => assert SameTable(w, SetAborted(w, s, true));
    case NoWork =>
    case _ => CloseSameTable(w);
  }

  lemma ResolveTable(w: World)
    requires InTable(w) && w.reader.Busy? && Counted(w.reader)
    ensures InTable(ResolveStep(w))
  {
    var r, v := w.reader, ResolveStep(w);
    if v != w {
      ResolvePending(w);
      if r.batch {
        var n := |r.results|;
        forall id | id in v.pending ensures exists k :: n + 1 <= k < |r.slips| && r.slips[k].id == id {
          var k :| n <= k < |r.slips| && r.slips[k].id == id;
        }
      }
    }
  }

  lemma ResolvePending(w: World)
    requires w.reader.Busy? && ResolveStep(w) != w
    ensures var r, v := w.reader, ResolveStep(w); var k := |r.results|;
      && k < |r.slips| && v.pending == (if r.batch then w.pending - {r.slips[k].id} else w.pending)
      && v.reader.Busy? && v.reader.batch == r.batch && v.reader.entries == r.entries && v.reader.slips == r.slips
      && |v.reader.results| == k + 1
  {
  }

  lemma ReplyTable(w: World)
    requires InTable(w) && w.reader.Busy? && Counted(w.reader)
    ensures InTable(ReplyStep(w))
  {
    var r, v := w.reader, ReplyStep(w);
    if v != w {
      ReplyShape(w);
      RepliesRight(r.batch, r.entries, r.results);
      var replies := Replies(r.entries, ResultsOf(r.results), 0);
      assert r.entries[..|r.actions|] == r.entries;
      assert |SlipIds(r.slips)| == |r.slips| && |IdsOf(replies)| == |replies|;
      if r.batch {
        assert w.pending == map[];
      } else {
        OneRequest(r.entries);
        forall id | id in w.pending ensures replies != [] && replies[0].id == id {
          var k :| 0 <= k < |r.slips| && r.slips[k].id == id;
          assert SlipIds(r.slips)[k] == id && IdsOf(replies)[k] == id;
        }
      }
    }
  }

  lemma OneRequest(entries: seq<Entry>)
    ensures |entries| == 1 ==> |RequestIdsOf(entries)| <= 1
  {
    if |entries| == 1 { assert RequestIdsOf(entries[1..]) == []; }
  }

  lemma StepTable(w: World, step: Step)
    requires InTable(w) && (w.reader.Busy? ==> Counted(w.reader))
    ensures InTable(Next(w, step))
  {
    if IsTaskStep(step) {
      if step.t < |w.turns| { TaskShape(w, step, step.t); }
    } else {
      match w.reader
      case Ready => if step.Read? { ReadTable(w, step.line); }
      case Starting(_, _) => if step.Start? { StartTable(w); }
      case Busy(_, _, _, _, _, _, _) => BusyTable(w, step);
    }
  }

  lemma BusyTable(w: World, step: Step)
    requires InTable(w) && w.reader.Busy? && Counted(w.reader)
    ensures InTable(ReaderStep(w, step))
  {
    match step
    case Handle(action) => HandleKeepsTable(w, action);
    case Proceed => ProceedTable(w);
    case TimeOut => KeptTable(w, TimeOutStep(w));
    case Resolve => ResolveTable(w);
    case SendReply => ReplyTable(w);
    case _ =>
  }

  lemma {:induction false} RunTable(steps: seq<Step>)
    ensures InTable(Run(INITIAL, steps))
  {
    if steps != [] {
      RunTable(steps[..|steps| - 1]);
      RunKeepsAnswers(steps[..|steps| - 1]);
      StepTable(Run(INITIAL, steps[..|steps| - 1]), steps[|steps| - 1]);
    }
  }

  // No request is left in the table of cancellable ones: whenever the reader is
  // ready for another line, the table is empty.
  lemma {:induction false} NothingPendingWhenReady(steps: seq<Step>)
    requires Run(INITIAL, steps).reader.Ready?
    ensures Run(INITIAL, steps).pending == map[]
  {
    RunTable(steps);
  }

  // ------------------------------------------------------------- session objects

  // The id of each session opened in a run, and how it wants its briefs, in order.
  ghost function OpenedIn(steps: seq<Step>): seq<(string, bool)> {
    if steps == [] then []
    else
      var w, last := Run(INITIAL, steps[..|steps| - 1]), steps[|steps| - 1];
      OpenedIn(steps[..|steps| - 1])
      + (if last.Handle? && last.action.Open? && TakesUp(w, last.action)
         then [(last.action.sid, last.action.structuredBrief)] else [])
  }

  ghost predicate AsOpened(w: World, asked: seq<(string, bool)>) {
    |w.sessions| == |asked|
    && forall s :: 0 <= s < |asked| ==> asked[s] == (w.sessions[s].sid, w.sessions[s].structuredBrief)
  }

  lemma StepAsOpened(w: World, step: Step, asked: seq<(string, bool)>)
    requires Registry(w) && AsOpened(w, asked)
    ensures AsOpened(Next(w, step),
                     asked + (if step.Handle? && step.action.Open? && TakesUp(w, step.action)
                               then [(step.action.sid, step.action.structuredBrief)] else []))
  {
    TurnStreams.StepNames(w, step);
    if step.Handle? && w.reader.Busy? && step.action.Open? && TakesUp(w, step.action) {
      OpensObject(w, step.action);
    } else {
      StepOpens(w, step);
    }
  }

  lemma OpensObject(w: World, action: Action)
    requires action.Open? && TakesUp(w, action)
    ensures HandleStep(w, action).sessions ==
      w.sessions + [Session(action.sid, action.structuredBrief, Free, false)]
  {
  }

  lemma StepOpens(w: World, step: Step)
    requires Registry(w) && !(step.Handle? && step.action.Open? && TakesUp(w, step.action))
    ensures |Next(w, step).sessions| == |w.sessions|
  {
    if IsTaskStep(step) {
      if step.t < |w.turns| { TaskShape(w, step, step.t); }
    } else {
      match w.reader
      case Ready => if step.Read? { ReadShape(w, step.line); }
      case Starting(_, _) => if step.Start? { StartShape(w); }
      case Busy(_, _, _, _, _, _, _) => BusyOpens(w, step);
    }
  }

  lemma BusyOpens(w: World, step: Step)
    requires Registry(w) && w.reader.Busy? && !(step.Handle? && step.action.Open? && TakesUp(w, step.action))
    ensures |ReaderStep(w, step).sessions| == |w.sessions|
  {
    match step
    case Handle(action) => if HandleStep(w, action) != w { HandleShape(w, action); }
    case Proceed => ProceedOpens(w);
    case TimeOut => if w.reader.work.ClosingWait? { TimeOutShape(w); }
    case Resolve => ResolveOpens(w);
    case SendReply => assert SameSessions(w, ReplyStep(w));
    case _ =>
  }

  lemma ProceedOpens(w: World)
    requires w.reader.Busy?
    ensures |ProceedStep(w).sessions| == |w.sessions|
  {
    if w.reader.work.ConvertingPrompt? {
      ConvertShape(w);
    } else if Closing(w.reader.work) {
      CloseShape(w);
    } else {
      ProceedShape(w);
    }
  }

  lemma ResolveOpens(w: World)
    requires w.reader.Busy?
    ensures |ResolveStep(w).sessions| == |w.sessions|
  {
    var r := w.reader;
    if WithdrawsNext(w) {
      WithdrawShape(if r.batch then w.(pending := w.pending - {r.slips[|r.results|].id}) else w,
                    r.answers[|r.results|].turn);
    }
  }

  // The session objects of a run are those its requests asked, in order, each
  // with the id and the way of showing briefs it was opened with.
  lemma {:induction false} SessionsAsOpened(steps: seq<Step>)
    ensures AsOpened(Run(INITIAL, steps), OpenedIn(steps))
  {
    if steps != [] {
      SessionsAsOpened(steps[..|steps| - 1]);
      RunKeepsBasic(INITIAL, steps[..|steps| - 1]);
      StepAsOpened(Run(INITIAL, steps[..|steps| - 1]), steps[|steps| - 1], OpenedIn(steps[..|steps| - 1]));
    }
  }
}
