/** What travels on the bridge: which value a waiting call is given, why a call
    ends otherwise, and that an evicted connection stays evicted. */
module BridgeValues {
  import opened Wrappers
  import opened Bridge

  // The reader of connection `c` takes this message of the host for request `r`,
  // which is pending there.
  predicate Takes(w: World, step: Step, c: nat, r: nat, value: Value) {
    && step == Arrive(c, value) && c in w.conns && w.conns[c].reader.Reading?
    && value.Message? && value.requestId == Some(r) && r in w.conns[c].pending
  }

  ghost predicate Taken(steps: seq<Step>, c: nat, r: nat, value: Value) {
    steps != []
    && var w := Run(INITIAL, steps[..|steps| - 1]);
       Taken(steps[..|steps| - 1], c, r, value) || Takes(w, steps[|steps| - 1], c, r, value)
  }

  // Connection `c` closes while request `r` is pending there.
  ghost predicate Cuts(w: World, step: Step, c: nat, r: nat) {
    && step.Close? && step.c == c && c in w.conns && w.conns[c].reader.Reading? && r in w.conns[c].pending
    && Enumerates(step.order, w.conns[c].pending)
  }

  ghost predicate Cut(steps: seq<Step>, c: nat, r: nat) {
    steps != []
    && (Cut(steps[..|steps| - 1], c, r) || Cuts(Run(INITIAL, steps[..|steps| - 1]), steps[|steps| - 1], c, r))
  }

  // ------------------------------------------------------------------ invariant

  // The value is in its connection's reader's hands, or sent.
  ghost predicate OnItsWay(w: World, c: nat, r: nat, value: Value) {
    && r in w.connOf && w.connOf[r] == c
    && ((c in w.conns && w.conns[c].reader == Delivering(r, value)) || (r, value) in w.sent)
  }

  ghost predicate Marked(w: World, c: nat, r: nat) {
    && r in w.connOf && w.connOf[r] == c
    && ((c in w.conns && w.conns[c].reader.Draining? && r in w.conns[c].reader.left) || (r, ClosedMarker) in w.sent)
  }

  // Exactly what was taken is on its way, and exactly what was cut off is marked.
  ghost predicate Faithful(steps: seq<Step>, w: World) {
    && (forall c: nat, r: nat, value: Value :: value.Message? ==>
         (Taken(steps, c, r, value) <==> OnItsWay(w, c, r, value)))
    && (forall c: nat, r: nat :: Cut(steps, c, r) <==> Marked(w, c, r))
  }

  ghost predicate Untouched(w: World, v: World) {
    && v.sent == w.sent
    && (forall r :: r in w.connOf ==> r in v.connOf && v.connOf[r] == w.connOf[r])
    && (forall c :: c in w.conns ==> c in v.conns)
    && (forall c :: c in v.conns && (c !in w.conns || v.conns[c].reader != w.conns[c].reader) ==>
         (c in w.conns ==> !w.conns[c].reader.Delivering? && !w.conns[c].reader.Draining?)
         && !v.conns[c].reader.Delivering? && !v.conns[c].reader.Draining?)
  }

  lemma CallUntouched(w: World, step: Step, k: nat)
    requires Inv(w) && k < |w.calls|
    ensures Untouched(w, CallStep(w, step, k))
  {
    CallSends(w, step, k);
    CallReaders(w, step, k);
  }

  lemma CallSends(w: World, step: Step, k: nat)
    requires Inv(w) && k < |w.calls|
    ensures var v := CallStep(w, step, k);
      v.sent == w.sent && forall r :: r in w.connOf ==> r in v.connOf && v.connOf[r] == w.connOf[r]
  {
    assert CallSound(w, w.calls[k]);
  }

  // A call spawns the reader of its own new connection at most.
  lemma CallReaders(w: World, step: Step, k: nat)
    requires Inv(w) && k < |w.calls|
    ensures var v := CallStep(w, step, k);
      && (forall c :: c in w.conns ==> c in v.conns)
      && (forall c :: c in v.conns ==>
           if c in w.conns then v.conns[c].reader == w.conns[c].reader
             || (w.conns[c].reader.Unspawned? && v.conns[c].reader.Reading?)
           else v.conns[c].reader.Unspawned?)
  {
    assert CallSound(w, w.calls[k]);
  }

  lemma UntouchedOnItsWay(w: World, v: World, c: nat, r: nat, value: Value)
    requires Inv(w) && Untouched(w, v)
    ensures OnItsWay(v, c, r, value) <==> OnItsWay(w, c, r, value)
    ensures Marked(v, c, r) <==> Marked(w, c, r)
  {
    if c in w.conns { assert ConnSound(w, c); }
    if exists other :: (r, other) in w.sent {
      var i :| 0 <= i < |w.sent| && w.sent[i].0 == r;
      assert AnswerFits(w, r, w.sent[i].1);
    }
    assert c in w.conns && HeldBy(w.conns[c], r) ==> r in w.connOf;
  }

  // What the reader of connection `d` does to the values of connection `c`.
  lemma ArriveMoves(w: World, d: nat, arrived: Value, c: nat, r: nat, value: Value)
    requires Inv(w) && d in w.conns && value.Message?
    ensures var v := ReaderStep(w, Arrive(d, arrived), d);
      && (OnItsWay(v, c, r, value) <==> OnItsWay(w, c, r, value) || Takes(w, Arrive(d, arrived), c, r, value))
      && (Marked(v, c, r) <==> Marked(w, c, r))
  {
    assert ConnSound(w, d);
    assert arrived.Message? && arrived.requestId == Some(r) && r in w.conns[d].pending ==> HeldBy(w.conns[d], r);
  }

  lemma DeliverMoves(w: World, d: nat, c: nat, r: nat, value: Value)
    requires Inv(w) && d in w.conns && value.Message?
    ensures var v := ReaderStep(w, Deliver(d), d);
      && (OnItsWay(v, c, r, value) <==> OnItsWay(w, c, r, value)) && (Marked(v, c, r) <==> Marked(w, c, r))
  {
    var v, reader := ReaderStep(w, Deliver(d), d), w.conns[d].reader;
    assert ConnSound(w, d);
    if reader.Delivering? {
      assert HeldBy(w.conns[d], reader.req);
      SentMore(w, v, reader.req, reader.value, r, value);
      SentMore(w, v, reader.req, reader.value, r, ClosedMarker);
    }
  }

  lemma SentMore(w: World, v: World, q: nat, sent: Value, r: nat, value: Value)
    requires v.sent == w.sent + [(q, sent)]
    ensures (r, value) in v.sent <==> (r, value) in w.sent || (r, value) == (q, sent)
  {
  }

  lemma CloseMoves(w: World, d: nat, order: seq<nat>, c: nat, r: nat, value: Value)
    requires Inv(w) && d in w.conns && value.Message?
    ensures var v := ReaderStep(w, Close(d, order), d);
      && (OnItsWay(v, c, r, value) <==> OnItsWay(w, c, r, value))
      && (Marked(v, c, r) <==> Marked(w, c, r) || Cuts(w, Close(d, order), c, r))
  {
    assert ConnSound(w, d);
    assert r in w.conns[d].pending ==> HeldBy(w.conns[d], r);
  }

  lemma DrainMoves(w: World, d: nat, c: nat, r: nat, value: Value)
    requires Inv(w) && d in w.conns && value.Message?
    ensures var v := ReaderStep(w, DrainNext(d), d);
      && (OnItsWay(v, c, r, value) <==> OnItsWay(w, c, r, value)) && (Marked(v, c, r) <==> Marked(w, c, r))
  {
    var v := ReaderStep(w, DrainNext(d), d);
    assert ConnSound(w, d);
    if v != w {
      var left := w.conns[d].reader.left;
      assert HeldBy(w.conns[d], left[0]) && left == [left[0]] + left[1..];
      SentMore(w, v, left[0], ClosedMarker, r, value);
      SentMore(w, v, left[0], ClosedMarker, r, ClosedMarker);
    }
  }

  lemma StopMoves(w: World, d: nat, c: nat, r: nat, value: Value)
    requires d in w.conns
    ensures var v := ReaderStep(w, Stop(d), d);
      && (OnItsWay(v, c, r, value) <==> OnItsWay(w, c, r, value)) && (Marked(v, c, r) <==> Marked(w, c, r))
  {
  }

  lemma ReaderMoves(w: World, step: Step, c: nat, r: nat, value: Value)
    requires Inv(w) && value.Message?
    requires (step.Arrive? || step.Deliver? || step.Close? || step.DrainNext? || step.Stop?) && step.c in w.conns
    ensures var v := ReaderStep(w, step, step.c);
      && (OnItsWay(v, c, r, value) <==> OnItsWay(w, c, r, value) || Takes(w, step, c, r, value))
      && (Marked(v, c, r) <==> Marked(w, c, r) || Cuts(w, step, c, r))
  {
    match step
    case Arrive(d, arrived) => ArriveMoves(w, d, arrived, c, r, value);
    case Deliver(d) => DeliverMoves(w, d, c, r, value);
    case Close(d, order) => CloseMoves(w, d, order, c, r, value);
    case DrainNext(d) => DrainMoves(w, d, c, r, value);
    case Stop(d) => StopMoves(w, d, c, r, value);
  }

  lemma StepMoves(w: World, step: Step, c: nat, r: nat, value: Value)
    requires Inv(w) && value.Message?
    ensures OnItsWay(Next(w, step), c, r, value) <==> OnItsWay(w, c, r, value) || Takes(w, step, c, r, value)
    ensures Marked(Next(w, step), c, r) <==> Marked(w, c, r) || Cuts(w, step, c, r)
  {
    if step.Begin? {
      UntouchedOnItsWay(w, Next(w, step), c, r, value);
    } else if step.Arrive? || step.Deliver? || step.Close? || step.DrainNext? || step.Stop? {
      if step.c in w.conns { ReaderMoves(w, step, c, r, value); }
    } else if step.k < |w.calls| {
      CallUntouched(w, step, step.k);
      UntouchedOnItsWay(w, Next(w, step), c, r, value);
    }
  }

  lemma {:induction false} RunFaithful(steps: seq<Step>)
    ensures Faithful(steps, Run(INITIAL, steps))
    decreases |steps|
  {
    if steps != [] {
      var front, last := steps[..|steps| - 1], steps[|steps| - 1];
      var w := Run(INITIAL, front);
      RunFaithful(front);
      RunKeepsInv(front);
      forall c: nat, r: nat, value: Value | value.Message?
        ensures Taken(steps, c, r, value) <==> OnItsWay(Run(INITIAL, steps), c, r, value)
      {
        StepMoves(w, last, c, r, value);
      }
      forall c: nat, r: nat ensures Cut(steps, c, r) <==> Marked(Run(INITIAL, steps), c, r) {
        StepMoves(w, last, c, r, Message(None, ""));
      }
    }
  }

  // ------------------------------------------------------------------- theorems

  // A call that returns a message returns exactly one that the host sent on the
  // call's own connection while its request was pending there; a call that
  // returns the marker was cut off by the close of that connection.
  lemma {:induction false} ReturnsWhatArrived(steps: seq<Step>, k: nat)
    requires k < |Run(INITIAL, steps).calls| && Returns(Run(INITIAL, steps), k)
    ensures var call := Run(INITIAL, steps).calls[k]; var value := call.outcome.value;
      if value.Message? then Taken(steps, call.conn, call.req, value) else Cut(steps, call.conn, call.req)
  {
    var w := Run(INITIAL, steps);
    var call := w.calls[k];
    RunKeepsInv(steps);
    RunFaithful(steps);
    assert CallSound(w, call);
    if call.outcome.value.Message? {
      assert OnItsWay(w, call.conn, call.req, call.outcome.value);
    } else {
      assert Marked(w, call.conn, call.req);
    }
  }

  // A message taken for a request is delivered next or has been sent, and no
  // other value ever is; likewise the marker for a request cut off.
  lemma {:induction false} TakenIsTheAnswer(steps: seq<Step>, c: nat, r: nat, value: Value, other: Value)
    ensures var w := Run(INITIAL, steps);
      && (Taken(steps, c, r, value) ==>
           && ((c in w.conns && w.conns[c].reader == Delivering(r, value)) || (r, value) in w.sent)
           && ((r, other) in w.sent ==> other == value))
      && (Cut(steps, c, r) && (r, other) in w.sent ==> other == ClosedMarker)
  {
    var w := Run(INITIAL, steps);
    RunKeepsInv(steps);
    RunFaithful(steps);
    TakenAreMessages(steps, c, r, value);
    if (r, other) in w.sent {
      SentIsAnswered(w, r, other);
      if c in w.conns { assert ConnSound(w, c); }
      if Taken(steps, c, r, value) {
        assert OnItsWay(w, c, r, value);
        OneValue(w, r, value, other);
      }
      if Cut(steps, c, r) {
        assert Marked(w, c, r);
        OneValue(w, r, ClosedMarker, other);
      }
    }
  }

  lemma OneValue(w: World, r: nat, value: Value, other: Value)
    requires SentSound(w) && (r, other) in w.sent
    ensures (r, value) in w.sent ==> value == other
  {
  }

  lemma {:induction false} TakenAreMessages(steps: seq<Step>, c: nat, r: nat, value: Value)
    ensures Taken(steps, c, r, value) ==> value.Message?
  {
    if steps != [] { TakenAreMessages(steps[..|steps| - 1], c, r, value); }
  }

  // ------------------------------------------------------------ why calls fail

  predicate WriteFails(w: World, step: Step, k: nat) {
    step == Write(k, false) && k < |w.calls| && w.calls[k].Writing?
  }

  predicate Expires(w: World, step: Step, k: nat) {
    step == Expire(k) && k < |w.calls| && w.calls[k].Awaiting?
  }

  predicate ConnectFails(w: World, step: Step, k: nat) {
    step == Connect(k, false) && k < |w.calls| && w.calls[k].Connecting?
  }

  ghost predicate WriteFailedIn(steps: seq<Step>, k: nat) {
    steps != []
    && (WriteFailedIn(steps[..|steps| - 1], k)
        || WriteFails(Run(INITIAL, steps[..|steps| - 1]), steps[|steps| - 1], k))
  }

  ghost predicate ExpiredIn(steps: seq<Step>, k: nat) {
    steps != []
    && (ExpiredIn(steps[..|steps| - 1], k) || Expires(Run(INITIAL, steps[..|steps| - 1]), steps[|steps| - 1], k))
  }

  ghost predicate ConnectFailedIn(steps: seq<Step>, k: nat) {
    steps != []
    && (ConnectFailedIn(steps[..|steps| - 1], k)
        || ConnectFails(Run(INITIAL, steps[..|steps| - 1]), steps[|steps| - 1], k))
  }

  predicate InFailedWrite(w: World, k: nat) {
    k < |w.calls| && FailedWrite(w.calls[k])
  }

  predicate FailedWrite(call: Call) {
    call.Failing? || ((call.Clearing? || call.Finished?) && call.outcome.WriteFailed?)
  }

  predicate TimedOutCall(call: Call) { call.Expired? || (call.Finished? && call.outcome.TimedOut?) }

  predicate InTimeout(w: World, k: nat) {
    k < |w.calls| && TimedOutCall(w.calls[k])
  }

  predicate Unsent(w: World, k: nat) { k < |w.calls| && w.calls[k].Unsent? }

  lemma StepReasons(w: World, step: Step, k: nat)
    requires Inv(w)
    ensures InFailedWrite(Next(w, step), k) <==> InFailedWrite(w, k) || WriteFails(w, step, k)
    ensures InTimeout(Next(w, step), k) <==> InTimeout(w, k) || Expires(w, step, k)
    ensures Unsent(Next(w, step), k) <==> Unsent(w, k) || ConnectFails(w, step, k)
  {
    if !step.Begin? && !(step.Arrive? || step.Deliver? || step.Close? || step.DrainNext? || step.Stop?) {
      if step.k < |w.calls| { CallReasons(w, step, step.k, k); }
    }
  }

  lemma CallReasons(w: World, step: Step, j: nat, k: nat)
    requires Inv(w) && j < |w.calls| && !step.Begin?
    requires !(step.Arrive? || step.Deliver? || step.Close? || step.DrainNext? || step.Stop?) && step.k == j
    ensures var v := CallStep(w, step, j);
      && (InFailedWrite(v, k) <==> InFailedWrite(w, k) || WriteFails(w, step, k))
      && (InTimeout(v, k) <==> InTimeout(w, k) || Expires(w, step, k))
      && (Unsent(v, k) <==> Unsent(w, k) || ConnectFails(w, step, k))
  {
    OwnCallOnly(w, step, j);
    if j == k { OwnReasons(w, step, k); }
  }

  lemma OwnCallOnly(w: World, step: Step, j: nat)
    requires j < |w.calls|
    ensures var v := CallStep(w, step, j); |v.calls| == |w.calls| && v.calls == w.calls[j := v.calls[j]]
  {
  }

  lemma OwnReasons(w: World, step: Step, k: nat)
    requires Inv(w) && k < |w.calls| && !step.Begin?
    requires !(step.Arrive? || step.Deliver? || step.Close? || step.DrainNext? || step.Stop?) && step.k == k
    ensures var call, next := w.calls[k], CallStep(w, step, k).calls[k];
      && (FailedWrite(next) <==> FailedWrite(call) || (step == Write(k, false) && call.Writing?))
      && (TimedOutCall(next) <==> TimedOutCall(call) || (step == Expire(k) && call.Awaiting?))
      && (next.Unsent? <==> call.Unsent? || (step == Connect(k, false) && call.Connecting?))
  {
    assert CallSound(w, w.calls[k]);
    if step.SeeDropped? && w.calls[k].Awaiting? { NeverDropped(w, k); }
  }

  // A call ends as a failed write exactly if its write failed, as a timeout
  // exactly if its timeout fired, and unsent exactly if its connect failed.
  lemma {:induction false} FailuresExactly(steps: seq<Step>, k: nat)
    ensures var w := Run(INITIAL, steps);
      && (InFailedWrite(w, k) <==> WriteFailedIn(steps, k))
      && (InTimeout(w, k) <==> ExpiredIn(steps, k))
      && (Unsent(w, k) <==> ConnectFailedIn(steps, k))
    decreases |steps|
  {
    if steps != [] {
      FailuresExactly(steps[..|steps| - 1], k);
      RunKeepsInv(steps[..|steps| - 1]);
      StepReasons(Run(INITIAL, steps[..|steps| - 1]), steps[|steps| - 1], k);
    }
  }

  // ----------------------------------------------------------------- evictions

  // The step makes its connection's owner let go of the store.
  predicate Evicts(w: World, step: Step, c: nat) {
    || (step == Stop(c) && c in w.conns && w.conns[c].reader == Draining([]))
    || (step.Clear? && step.k < |w.calls| && w.calls[step.k].Clearing? && w.calls[step.k].conn == c)
  }

  // A connection once spawned that is not in the store.
  ghost predicate OutOfStore(w: World, c: nat) {
    c in w.conns && !w.conns[c].reader.Unspawned? && w.store != Some(c)
  }

  lemma StepStaysOut(w: World, step: Step, c: nat)
    requires Inv(w) && OutOfStore(w, c)
    ensures OutOfStore(Next(w, step), c)
  {
    if !step.Begin? && !(step.Arrive? || step.Deliver? || step.Close? || step.DrainNext? || step.Stop?) {
      if step.k < |w.calls| { assert CallSound(w, w.calls[step.k]); }
    }
  }

  // Requests are sent on connections that were spawned.
  ghost predicate Spawned(w: World) {
    forall r :: r in w.connOf ==> w.connOf[r] in w.conns && !w.conns[w.connOf[r]].reader.Unspawned?
  }

  lemma StepKeepsSpawned(w: World, step: Step)
    requires Inv(w) && Spawned(w)
    ensures Spawned(Next(w, step))
  {
    if step.Arrive? || step.Deliver? || step.Close? || step.DrainNext? || step.Stop? {
      if step.c in w.conns { ReaderKeepsSpawned(w, step, step.c); }
    } else if !step.Begin? && step.k < |w.calls| {
      CallKeepsSpawned(w, step, step.k);
    }
  }

  lemma ReaderKeepsSpawned(w: World, step: Step, c: nat)
    requires Spawned(w) && c in w.conns
    ensures Spawned(ReaderStep(w, step, c))
  {
  }

  lemma CallKeepsSpawned(w: World, step: Step, k: nat)
    requires Inv(w) && Spawned(w) && k < |w.calls|
    ensures Spawned(CallStep(w, step, k))
  {
    assert CallSound(w, w.calls[k]);
  }

  lemma {:induction false} RunSpawned(steps: seq<Step>)
    ensures Spawned(Run(INITIAL, steps))
  {
    if steps != [] {
      RunSpawned(steps[..|steps| - 1]);
      RunKeepsInv(steps[..|steps| - 1]);
      StepKeepsSpawned(Run(INITIAL, steps[..|steps| - 1]), steps[|steps| - 1]);
    }
  }

  lemma {:induction false} StaysOut(w: World, steps: seq<Step>, c: nat)
    requires Inv(w) && OutOfStore(w, c)
    ensures OutOfStore(Run(w, steps), c)
    decreases |steps|
  {
    if steps != [] {
      StaysOut(w, steps[..|steps| - 1], c);
      RunKeepsInvFrom(w, steps[..|steps| - 1]);
      StepStaysOut(Run(w, steps[..|steps| - 1]), steps[|steps| - 1], c);
    }
  }

  // A connection whose socket has closed, or on which a write has failed, is not
  // handed to any later call: from then on the store never holds it again.
  lemma {:induction false} EvictedForGood(before: seq<Step>, w: World, step: Step, after: seq<Step>, c: nat)
    requires w == Run(INITIAL, before) && Evicts(w, step, c)
    ensures Run(Next(w, step), after).store != Some(c)
  {
    RunKeepsInv(before);
    StepKeepsInv(w, step);
    RunSpawned(before);
    if step.Clear? { assert CallSound(w, w.calls[step.k]); }
    StaysOut(Next(w, step), after, c);
  }

  // ------------------------------------------------------------ one connection

  predicate Carries(frame: Value, r: nat) { frame.Message? && frame.requestId == Some(r) }

  ghost predicate FirstAt(frames: seq<Value>, r: nat, i: nat) {
    i < |frames| && Carries(frames[i], r) && forall j :: 0 <= j < i ==> !Carries(frames[j], r)
  }

  // What a waiter is given is the first frame that carries its id, or the marker
  // if there is none.
  lemma {:induction false} FirstForIsFirst(frames: seq<Value>, r: nat, i: nat)
    ensures FirstAt(frames, r, i) ==> FirstFor(frames, r) == frames[i]
    ensures (forall j :: 0 <= j < |frames| ==> !Carries(frames[j], r)) ==> FirstFor(frames, r) == ClosedMarker
  {
    if frames != [] && !Carries(frames[0], r) {
      var rest := frames[1..];
      assert forall j :: 1 <= j < |frames| ==> frames[j] == rest[j - 1];
      assert forall j :: 0 <= j < |rest| ==> rest[j] == frames[j + 1];
      FirstForIsFirst(rest, r, if i == 0 then 0 else i - 1);
    }
  }
}
