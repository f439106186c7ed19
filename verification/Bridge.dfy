/** Request and response correlation between the MCP bridge and the browser's
    native host (`mcp_bridge.rs`), for one bridge process. Calls, replies,
    timeouts, closes and reconnects interleave; each lock-protected region and
    each channel operation is one step. */
module Bridge {
  import opened Wrappers

  // What arrives for a waiter: a message from the host, or the marker sent when
  // its connection's socket closes.
  datatype Value = Message(requestId: Option<nat>, body: string) | ClosedMarker

  datatype Outcome = Returned(value: Value) | ConnectFailed | WriteFailed | ChannelDropped | TimedOut

  // The progress of one `forward_tool_call`.
  datatype Call =
    | Starting
    | Connecting                              // saw no connection in the store
    | Opened(conn: nat)                       // has a socket and a connection id
    | Connected(conn: nat)
    | Numbered(conn: nat, req: nat)
    | Writing(conn: nat, req: nat)            // its sender is in the pending map
    | Failing(conn: nat, req: nat)            // the write failed
    | Clearing(conn: nat, req: nat, outcome: Outcome)
    | Awaiting(conn: nat, req: nat)
    | Expired(conn: nat, req: nat)            // the timeout fired
    | Finished(conn: nat, req: nat, outcome: Outcome)
    | Unsent                                  // failed to connect

  datatype Reader =
    | Unspawned                               // lost the race to publish
    | Reading
    | Delivering(req: nat, value: Value)      // took the sender, sends next
    | Draining(left: seq<nat>)
    | Stopped

  datatype Conn = Conn(pending: set<nat>, reader: Reader)

  // `sent` records the reply channels' traffic, `connOf` which connection a
  // request was inserted under; both are history.
  datatype World = World(
    nextReq: nat,
    nextConn: nat,
    store: Option<nat>,
    conns: map<nat, Conn>,
    calls: seq<Call>,
    sent: seq<(nat, Value)>,
    connOf: map<nat, nat>)

  const INITIAL := World(1, 1, None, map[], [], [], map[])

  datatype Step =
    | Begin
    | Lookup(k: nat)
    | Connect(k: nat, ok: bool)
    | Publish(k: nat)
    | Number(k: nat)
    | Insert(k: nat)
    | Write(k: nat, ok: bool)
    | RemoveFailed(k: nat)
    | Clear(k: nat)
    | Receive(k: nat, value: Value)
    | SeeDropped(k: nat)
    | Expire(k: nat)
    | RemoveExpired(k: nat)
    | Arrive(c: nat, value: Value)
    | Deliver(c: nat)
    | Close(c: nat, order: seq<nat>)
    | DrainNext(c: nat)
    | Stop(c: nat)

  // ------------------------------------------------------------------- machine

  function SetCall(w: World, k: nat, call: Call): World
    requires k < |w.calls|
  {
    w.(calls := w.calls[k := call])
  }

  function SetReader(w: World, c: nat, reader: Reader): World
    requires c in w.conns
  {
    w.(conns := w.conns[c := w.conns[c].(reader := reader)])
  }

  function WithoutPending(w: World, c: nat, req: nat): World {
    if c in w.conns then w.(conns := w.conns[c := w.conns[c].(pending := w.conns[c].pending - {req})]) else w
  }

  // `clear_connection_if_current`
  function Cleared(w: World, c: nat): World {
    if w.store == Some(c) then w.(store := None) else w
  }

  // Where a request's sender may be.
  ghost predicate Held(w: World, req: nat) {
    exists c :: c in w.conns && HeldBy(w.conns[c], req)
  }

  predicate HeldBy(conn: Conn, req: nat) {
    req in conn.pending
    || (conn.reader.Delivering? && conn.reader.req == req)
    || (conn.reader.Draining? && req in conn.reader.left)
  }

  ghost predicate Answered(w: World, req: nat) {
    exists i :: 0 <= i < |w.sent| && w.sent[i].0 == req
  }

  ghost predicate Enumerates(order: seq<nat>, s: set<nat>) {
    (forall r :: r in order <==> r in s) && (forall i, j :: 0 <= i < j < |order| ==> order[i] != order[j])
  }

  ghost function CallStep(w: World, step: Step, k: nat): World
    requires k < |w.calls|
  {
    var me := w.calls[k];
    match step
    case Lookup(_) =>
      if !me.Starting? then w
      else SetCall(w, k, if w.store.Some? then Connected(w.store.value) else Connecting)
    case Connect(_, ok) =>
      if !me.Connecting? then w
      else if !ok then SetCall(w, k, Unsent)
      else SetCall(w, k, Opened(w.nextConn)).(
        nextConn := w.nextConn + 1, conns := w.conns[w.nextConn := Conn({}, Unspawned)])
    case Publish(_) =>
      if !me.Opened? || me.conn !in w.conns then w
      else if w.store.Some? then SetCall(w, k, Connected(w.store.value))
      else SetReader(SetCall(w, k, Connected(me.conn)), me.conn, Reading).(store := Some(me.conn))
    case Number(_) =>
      if !me.Connected? then w
      else SetCall(w, k, Numbered(me.conn, w.nextReq)).(nextReq := w.nextReq + 1)
    case Insert(_) =>
      if !me.Numbered? || me.conn !in w.conns then w
      else SetCall(w, k, Writing(me.conn, me.req)).(
        conns := w.conns[me.conn := w.conns[me.conn].(pending := w.conns[me.conn].pending + {me.req})],
        connOf := w.connOf[me.req := me.conn])
    case Write(_, ok) =>
      if !me.Writing? then w
      else SetCall(w, k, if ok then Awaiting(me.conn, me.req) else Failing(me.conn, me.req))
    case RemoveFailed(_) =>
      if !me.Failing? then w
      else SetCall(WithoutPending(w, me.conn, me.req), k, Clearing(me.conn, me.req, WriteFailed))
    case Clear(_) =>
      if !me.Clearing? then w
      else SetCall(Cleared(w, me.conn), k, Finished(me.conn, me.req, me.outcome))
    case Receive(_, value) =>
      if me.Awaiting? && (me.req, value) in w.sent then SetCall(w, k, Finished(me.conn, me.req, Returned(value))) else w
    case SeeDropped(_) =>
      if me.Awaiting? && !Held(w, me.req) && !Answered(w, me.req)
      then SetCall(w, k, Clearing(me.conn, me.req, ChannelDropped)) else w
    case Expire(_) =>
      if me.Awaiting? then SetCall(w, k, Expired(me.conn, me.req)) else w
    case RemoveExpired(_) =>
      if me.Expired? then SetCall(WithoutPending(w, me.conn, me.req), k, Finished(me.conn, me.req, TimedOut)) else w
    case _ => w
  }

  ghost function ReaderStep(w: World, step: Step, c: nat): World
    requires c in w.conns
  {
    var conn := w.conns[c];
    match step
    case Arrive(_, value) =>
      // A message for no pending request is logged and dropped.
      if conn.reader.Reading? && value.Message? && value.requestId.Some? && value.requestId.value in conn.pending then
        SetReader(WithoutPending(w, c, value.requestId.value), c, Delivering(value.requestId.value, value))
      else w
    case Deliver(_) =>
      if conn.reader.Delivering? then
        SetReader(w, c, Reading).(sent := w.sent + [(conn.reader.req, conn.reader.value)])
      else w
    case Close(_, order) =>
      if conn.reader.Reading? && Enumerates(order, conn.pending) then
        w.(conns := w.conns[c := Conn({}, Draining(order))])
      else w
    case DrainNext(_) =>
      if conn.reader.Draining? && conn.reader.left != [] then
        SetReader(w, c, Draining(conn.reader.left[1..])).(sent := w.sent + [(conn.reader.left[0], ClosedMarker)])
      else w
    case Stop(_) =>
      if conn.reader == Draining([]) then SetReader(Cleared(w, c), c, Stopped) else w
    case _ => w
  }

  ghost function Next(w: World, step: Step): World {
    if step.Begin? then w.(calls := w.calls + [Starting])
    else if step.Arrive? || step.Deliver? || step.Close? || step.DrainNext? || step.Stop? then
      if step.c in w.conns then ReaderStep(w, step, step.c) else w
    else if step.k < |w.calls| then CallStep(w, step, step.k)
    else w
  }

  ghost function Run(w: World, steps: seq<Step>): World
    decreases |steps|
  {
    if steps == [] then w else Next(Run(w, steps[..|steps| - 1]), steps[|steps| - 1])
  }

  // ----------------------------------------------------------------- invariant

  function ReqOf(call: Call): Option<nat> {
    if call.Numbered? || call.Writing? || call.Failing? || call.Clearing? || call.Awaiting? || call.Expired?
      || call.Finished?
    then Some(call.req) else None
  }

  // A call's own connection and, while it may still be answered, its sender.
  ghost predicate CallSound(w: World, call: Call) {
    && (ReqOf(call).Some? ==> call.req < w.nextReq)
    && (ReqOf(call).Some? && !call.Numbered? ==> call.req in w.connOf && w.connOf[call.req] == call.conn)
    && (call.Numbered? ==> call.req !in w.connOf)
    && (call.Writing? || call.Failing? || call.Awaiting? || call.Expired? ==>
         call.conn in w.conns && (HeldBy(w.conns[call.conn], call.req) || Answered(w, call.req)))
    && (call.Opened? ==> call.conn in w.conns && w.conns[call.conn] == Conn({}, Unspawned))
    && (call.Connected? || call.Numbered? ==> call.conn in w.conns && !w.conns[call.conn].reader.Unspawned?)
    && (call.Clearing? ==> call.outcome == WriteFailed)
    && (call.Finished? ==> call.outcome != ChannelDropped)
    && (call.Finished? && call.outcome.Returned? ==> (call.req, call.outcome.value) in w.sent)
  }

  ghost predicate ConnSound(w: World, c: nat)
    requires c in w.conns
  {
    var conn := w.conns[c];
    && (forall r :: HeldBy(conn, r) ==> r in w.connOf && w.connOf[r] == c && !Answered(w, r))
    && (conn.reader.Delivering? ==>
         && conn.reader.req !in conn.pending
         && conn.reader.value.Message? && conn.reader.value.requestId == Some(conn.reader.req))
    && (conn.reader.Draining? ==> Distinct(conn.reader.left))
    && (conn.reader.Draining? ==> forall r :: r in conn.reader.left ==> r !in conn.pending)
    && (conn.reader.Unspawned? ==> conn.pending == {})
  }

  ghost predicate Distinct(s: seq<nat>) {
    forall i, j :: 0 <= i < j < |s| ==> s[i] != s[j]
  }

  predicate Ended(reader: Reader) { reader.Draining? || reader.Stopped? }

  ghost predicate SentSound(w: World) {
    && (forall i, j :: 0 <= i < j < |w.sent| ==> w.sent[i].0 != w.sent[j].0)
    && (forall i :: 0 <= i < |w.sent| ==> AnswerFits(w, w.sent[i].0, w.sent[i].1))
  }

  // The value is the host's message for that very request, or the marker of the
  // connection the request was sent on, whose reader has ended.
  ghost predicate AnswerFits(w: World, req: nat, value: Value) {
    && req in w.connOf && w.connOf[req] in w.conns
    && ((value.Message? && value.requestId == Some(req))
        || (value == ClosedMarker && Ended(w.conns[w.connOf[req]].reader)))
  }

  ghost predicate StoreSound(w: World) {
    && (forall c :: c in w.conns ==> c < w.nextConn)
    && (forall r :: r in w.connOf ==> r < w.nextReq && w.connOf[r] in w.conns)
    && (w.store.Some? ==> w.store.value in w.conns && !w.conns[w.store.value].reader.Unspawned?)
    && (forall i, j :: 0 <= i < j < |w.calls| && ReqOf(w.calls[i]).Some? ==> ReqOf(w.calls[i]) != ReqOf(w.calls[j]))
    && (forall i, j :: 0 <= i < j < |w.calls| && w.calls[i].Opened? && w.calls[j].Opened? ==>
         w.calls[i].conn != w.calls[j].conn)
  }

  ghost predicate Inv(w: World) {
    && StoreSound(w) && SentSound(w)
    && (forall c :: c in w.conns ==> ConnSound(w, c))
    && (forall i :: 0 <= i < |w.calls| ==> CallSound(w, w.calls[i]))
  }

  // What a step may do to the rest of the world, request `except` aside: it
  // loses no sender and no answer, and undoes no publishing and no ending.
  ghost predicate Evolves(w: World, v: World, except: Option<nat>) {
    && w.nextReq <= v.nextReq && w.nextConn <= v.nextConn
    && (forall r :: r in w.connOf ==> r in v.connOf && v.connOf[r] == w.connOf[r])
    && (forall r :: r in v.connOf && r !in w.connOf ==> except == Some(r))
    && (forall c :: c in w.conns ==> c in v.conns && (w.conns[c].reader.Unspawned? || !v.conns[c].reader.Unspawned?))
    && (forall c :: c in w.conns && Ended(w.conns[c].reader) ==> Ended(v.conns[c].reader))
    && (forall c: nat, r: nat :: c in w.conns && HeldBy(w.conns[c], r) && except != Some(r) ==>
         HeldBy(v.conns[c], r) || Answered(v, r))
    && w.sent <= v.sent
  }

  lemma AnsweredStays(w: World, v: World, r: nat)
    requires w.sent <= v.sent && Answered(w, r)
    ensures Answered(v, r)
  {
    var i :| 0 <= i < |w.sent| && w.sent[i].0 == r;
    assert v.sent[i].0 == r;
  }

  lemma CallStaysSound(w: World, v: World, except: Option<nat>, call: Call)
    requires Evolves(w, v, except) && CallSound(w, call)
    requires ReqOf(call).Some? ==> ReqOf(call) != except
    requires call.Opened? ==> call.conn in v.conns && v.conns[call.conn] == w.conns[call.conn]
    ensures CallSound(v, call)
  {
    if ReqOf(call).Some? && Answered(w, call.req) {
      AnsweredStays(w, v, call.req);
    }
  }

  lemma SentStaysSound(w: World, v: World, except: Option<nat>)
    requires SentSound(w) && v.sent == w.sent && Evolves(w, v, except)
    ensures SentSound(v)
  {
  }

  // Only connection `c` changes, and only requests sent on it gain an answer.
  lemma ConnsStaySound(w: World, v: World, c: nat)
    requires forall d :: d in w.conns ==> ConnSound(w, d)
    requires forall r :: r in w.connOf ==> r in v.connOf && v.connOf[r] == w.connOf[r]
    requires forall d :: d in v.conns && d != c ==> d in w.conns && v.conns[d] == w.conns[d]
    requires forall r :: Answered(v, r) && !Answered(w, r) ==> r in w.connOf && w.connOf[r] == c
    requires c in v.conns ==> ConnSound(v, c)
    ensures forall d :: d in v.conns ==> ConnSound(v, d)
  {
    forall d | d in v.conns ensures ConnSound(v, d) {
      if d != c { assert ConnSound(w, d); }
    }
  }

  lemma SameSentSameAnswers(w: World, v: World)
    requires v.sent == w.sent
    ensures forall r :: Answered(v, r) <==> Answered(w, r)
  {
  }

  // The other calls of a step in which call `k` acts.
  lemma OtherCallsSound(w: World, v: World, k: nat)
    requires Inv(w) && k < |w.calls| && k < |v.calls| && v.calls == w.calls[k := v.calls[k]]
    requires Evolves(w, v, ReqOf(w.calls[k]))
    requires forall d ::
      d in w.conns && w.conns[d].reader.Unspawned? && !(w.calls[k].Opened? && w.calls[k].conn == d) ==>
      v.conns[d] == w.conns[d]
    requires CallSound(v, v.calls[k])
    ensures forall i :: 0 <= i < |v.calls| ==> CallSound(v, v.calls[i])
  {
    forall i | 0 <= i < |v.calls| ensures CallSound(v, v.calls[i]) {
      if i != k {
        assert CallSound(w, w.calls[i]);
        CallStaysSound(w, v, ReqOf(w.calls[k]), w.calls[i]);
      }
    }
  }

  // Steps that move one call and touch no connection.
  lemma CallOnly(w: World, k: nat, call: Call, v: World)
    requires Inv(w) && k < |w.calls| && v.calls == w.calls[k := call]
    requires v.conns == w.conns && v.connOf == w.connOf && v.sent == w.sent
    requires w.nextReq <= v.nextReq && v.nextConn == w.nextConn && (v.store == w.store || v.store == None)
    requires ReqOf(call) == ReqOf(w.calls[k])
      || (ReqOf(w.calls[k]) == None && ReqOf(call) == Some(w.nextReq) && v.nextReq > w.nextReq)
    requires !call.Opened? && CallSound(v, call)
    ensures Inv(v)
  {
    SameSentSameAnswers(w, v);
    assert Evolves(w, v, ReqOf(w.calls[k]));
    SentStaysSound(w, v, ReqOf(w.calls[k]));
    OtherCallsSound(w, v, k);
    forall c | c in v.conns ensures ConnSound(v, c) { assert ConnSound(w, c); }
    forall i | 0 <= i < |w.calls| ensures CallSound(w, w.calls[i]) {}
  }

  lemma CallStepsAlone(w: World, step: Step, k: nat)
    requires Inv(w) && k < |w.calls|
    requires step.Lookup? || (step.Connect? && !step.ok) || step.Number? || step.Write? || step.Clear?
      || step.Receive? || step.Expire? || (step.Publish? && w.store.Some?)
    ensures Inv(CallStep(w, step, k))
  {
    var v := CallStep(w, step, k);
    assert CallSound(w, w.calls[k]);
    if v != w {
      SameSentSameAnswers(w, v);
      if step.Number? {
        assert w.nextReq !in w.connOf;
      }
      CallOnly(w, k, v.calls[k], v);
    }
  }

  // The reply channel is never dropped unused: while a call waits, its sender is
  // in the pending map, with the reader, or used.
  lemma NeverDropped(w: World, k: nat)
    requires Inv(w) && k < |w.calls| && w.calls[k].Awaiting?
    ensures Held(w, w.calls[k].req) || Answered(w, w.calls[k].req)
  {
    assert CallSound(w, w.calls[k]);
  }

  lemma ConnectKeepsInv(w: World, k: nat)
    requires Inv(w) && k < |w.calls| && w.calls[k].Connecting?
    ensures Inv(CallStep(w, Connect(k, true), k))
  {
    var v := CallStep(w, Connect(k, true), k);
    SameSentSameAnswers(w, v);
    assert Evolves(w, v, None);
    SentStaysSound(w, v, None);
    ConnsStaySound(w, v, w.nextConn);
    forall i | 0 <= i < |w.calls| && w.calls[i].Opened? ensures w.calls[i].conn != w.nextConn {
      assert CallSound(w, w.calls[i]);
    }
    OtherCallsSound(w, v, k);
  }

  lemma PublishKeepsInv(w: World, k: nat)
    requires Inv(w) && k < |w.calls| && w.calls[k].Opened? && w.store.None?
    ensures Inv(CallStep(w, Publish(k), k))
  {
    var v, c := CallStep(w, Publish(k), k), w.calls[k].conn;
    assert CallSound(w, w.calls[k]) && ConnSound(w, c);
    SameSentSameAnswers(w, v);
    assert Evolves(w, v, None);
    SentStaysSound(w, v, None);
    ConnsStaySound(w, v, c);
    forall i | 0 <= i < |v.calls| ensures CallSound(v, v.calls[i]) {
      if i != k {
        assert CallSound(w, w.calls[i]);
        CallStaysSound(w, v, None, w.calls[i]);
      }
    }
  }

  lemma AnsweredWasSent(w: World, r: nat)
    requires SentSound(w)
    ensures Answered(w, r) ==> r in w.connOf
  {
    if Answered(w, r) {
      var i :| 0 <= i < |w.sent| && w.sent[i].0 == r;
      assert AnswerFits(w, w.sent[i].0, w.sent[i].1);
    }
  }

  // Putting request `r` into its connection's pending map.
  lemma InsertEvolves(w: World, v: World, k: nat)
    requires Inv(w) && k < |w.calls| && w.calls[k].Numbered? && v == CallStep(w, Insert(k), k)
    ensures Evolves(w, v, Some(w.calls[k].req)) && w.calls[k].conn in v.conns
  {
    assert CallSound(w, w.calls[k]) && ConnSound(w, w.calls[k].conn);
    SameSentSameAnswers(w, v);
  }

  lemma InsertedConnSound(w: World, v: World, k: nat)
    requires Inv(w) && k < |w.calls| && w.calls[k].Numbered? && v == CallStep(w, Insert(k), k)
    ensures w.calls[k].conn in v.conns && ConnSound(v, w.calls[k].conn)
  {
    assert CallSound(w, w.calls[k]) && ConnSound(w, w.calls[k].conn);
    SameSentSameAnswers(w, v);
    AnsweredWasSent(w, w.calls[k].req);
  }

  lemma InsertedSound(w: World, v: World, k: nat)
    requires Inv(w) && k < |w.calls| && w.calls[k].Numbered? && v == CallStep(w, Insert(k), k)
    ensures Evolves(w, v, Some(w.calls[k].req)) && SentSound(v) && (forall d :: d in v.conns ==> ConnSound(v, d))
    ensures forall q :: Answered(v, q) <==> Answered(w, q)
  {
    SameSentSameAnswers(w, v);
    InsertEvolves(w, v, k);
    InsertedConnSound(w, v, k);
    SentStaysSound(w, v, Some(w.calls[k].req));
    ConnsStaySound(w, v, w.calls[k].conn);
  }

  lemma InsertKeepsInv(w: World, k: nat)
    requires Inv(w) && k < |w.calls| && w.calls[k].Numbered?
    ensures Inv(CallStep(w, Insert(k), k))
  {
    var v := CallStep(w, Insert(k), k);
    assert CallSound(w, w.calls[k]);
    InsertedSound(w, v, k);
    OtherCallsSound(w, v, k);
  }

  lemma WithoutPendingEvolves(w: World, v: World, c: nat, r: nat)
    requires Inv(w) && r in w.connOf && w.connOf[r] == c && v == WithoutPending(w, c, r).(calls := v.calls)
    ensures c in v.conns && ConnSound(v, c) && Evolves(w, v, Some(r))
  {
    SameSentSameAnswers(w, v);
    assert c in w.conns && ConnSound(w, c);
  }

  // Taking request `r` out of its connection's pending map.
  lemma WithoutPendingSound(w: World, v: World, c: nat, r: nat)
    requires Inv(w) && r in w.connOf && w.connOf[r] == c && v == WithoutPending(w, c, r).(calls := v.calls)
    ensures Evolves(w, v, Some(r)) && SentSound(v) && (forall d :: d in v.conns ==> ConnSound(v, d))
    ensures forall q :: Answered(v, q) <==> Answered(w, q)
  {
    SameSentSameAnswers(w, v);
    WithoutPendingEvolves(w, v, c, r);
    SentStaysSound(w, v, Some(r));
    ConnsStaySound(w, v, c);
  }

  // What a removal leaves of the world, and of the call.
  lemma RemovedShape(w: World, k: nat, step: Step)
    requires Inv(w) && k < |w.calls|
    requires (step.RemoveFailed? && w.calls[k].Failing?) || (step.RemoveExpired? && w.calls[k].Expired?)
    ensures var v, c, r := CallStep(w, step, k), w.calls[k].conn, w.calls[k].req;
      && v == WithoutPending(w, c, r).(calls := v.calls) && |v.calls| == |w.calls|
      && v.calls == w.calls[k := v.calls[k]] && ReqOf(v.calls[k]) == ReqOf(w.calls[k])
      && r in w.connOf && w.connOf[r] == c && CallSound(v, v.calls[k])
  {
    assert CallSound(w, w.calls[k]);
  }

  lemma WithoutPendingStore(w: World, v: World, k: nat)
    requires Inv(w) && k < |w.calls| && ReqOf(w.calls[k]).Some?
    requires v == WithoutPending(w, w.calls[k].conn, w.calls[k].req).(calls := v.calls)
    requires |v.calls| == |w.calls| && v.calls == w.calls[k := v.calls[k]] && ReqOf(v.calls[k]) == ReqOf(w.calls[k])
    ensures StoreSound(v)
  {
  }

  lemma WithoutPendingKeepsInv(w: World, v: World, k: nat)
    requires Inv(w) && k < |w.calls| && (w.calls[k].Failing? || w.calls[k].Expired?) && w.calls[k].req in w.connOf
    requires w.connOf[w.calls[k].req] == w.calls[k].conn
    requires v == WithoutPending(w, w.calls[k].conn, w.calls[k].req).(calls := v.calls)
    requires |v.calls| == |w.calls| && v.calls == w.calls[k := v.calls[k]] && CallSound(v, v.calls[k])
    requires ReqOf(v.calls[k]) == ReqOf(w.calls[k])
    ensures Inv(v)
  {
    WithoutPendingStore(w, v, k);
    WithoutPendingSound(w, v, w.calls[k].conn, w.calls[k].req);
    WithoutPendingReader(w, v, w.calls[k].conn, w.calls[k].req);
    OtherCallsSound(w, v, k);
  }

  lemma RemoveKeepsInv(w: World, k: nat, step: Step)
    requires Inv(w) && k < |w.calls|
    requires (step.RemoveFailed? && w.calls[k].Failing?) || (step.RemoveExpired? && w.calls[k].Expired?)
    ensures Inv(CallStep(w, step, k))
  {
    RemovedShape(w, k, step);
    WithoutPendingKeepsInv(w, CallStep(w, step, k), k);
  }

  lemma WithoutPendingReader(w: World, v: World, c: nat, r: nat)
    requires Inv(w) && v == WithoutPending(w, c, r).(calls := v.calls)
    ensures forall d :: d in w.conns && w.conns[d].reader.Unspawned? ==> v.conns[d] == w.conns[d]
  {
    if c in w.conns && w.conns[c].reader.Unspawned? {
      assert ConnSound(w, c);
      assert w.conns[c].pending - {r} == {};
    }
  }

  // ------------------------------------------------------------- reader steps

  lemma ReaderOnly(w: World, v: World, c: nat)
    requires Inv(w) && Evolves(w, v, None) && c in w.conns && !w.conns[c].reader.Unspawned?
    requires v.calls == w.calls && v.nextReq == w.nextReq && v.nextConn == w.nextConn && v.connOf == w.connOf
    requires v.store == w.store || v.store == None
    requires v.conns.Keys == w.conns.Keys && forall d :: d in v.conns && d != c ==> v.conns[d] == w.conns[d]
    requires forall r :: Answered(v, r) && !Answered(w, r) ==> r in w.connOf && w.connOf[r] == c
    requires ConnSound(v, c) && SentSound(v)
    ensures Inv(v)
  {
    ConnsStaySound(w, v, c);
    forall i | 0 <= i < |v.calls| ensures CallSound(v, v.calls[i]) {
      assert CallSound(w, w.calls[i]);
      CallStaysSound(w, v, None, w.calls[i]);
    }
  }

  // The sender moved from the pending map to the reader's hands.
  lemma ArrivedHeld(w: World, c: nat, value: Value)
    requires Inv(w) && c in w.conns
    ensures var v := ReaderStep(w, Arrive(c, value), c);
      && v.conns.Keys == w.conns.Keys && (forall d :: d in w.conns && d != c ==> v.conns[d] == w.conns[d])
      && (forall r :: HeldBy(v.conns[c], r) <==> HeldBy(w.conns[c], r))
      && ConnSound(v, c)
  {
    var v := ReaderStep(w, Arrive(c, value), c);
    assert ConnSound(w, c);
    SameSentSameAnswers(w, v);
  }

  lemma ArrivedSound(w: World, c: nat, value: Value)
    requires Inv(w) && c in w.conns
    ensures var v := ReaderStep(w, Arrive(c, value), c); Evolves(w, v, None) && SentSound(v)
  {
    var v := ReaderStep(w, Arrive(c, value), c);
    ArrivedHeld(w, c, value);
    assert Evolves(w, v, None);
    SentStaysSound(w, v, None);
  }

  lemma ArriveKeepsInv(w: World, c: nat, value: Value)
    requires Inv(w) && c in w.conns
    ensures Inv(ReaderStep(w, Arrive(c, value), c))
  {
    var v := ReaderStep(w, Arrive(c, value), c);
    if v != w {
      ArrivedHeld(w, c, value);
      ArrivedSound(w, c, value);
      SameSentSameAnswers(w, v);
      ReaderOnly(w, v, c);
    }
  }

  lemma CloseKeepsInv(w: World, c: nat, order: seq<nat>)
    requires Inv(w) && c in w.conns
    ensures Inv(ReaderStep(w, Close(c, order), c))
  {
    var v := ReaderStep(w, Close(c, order), c);
    assert ConnSound(w, c);
    if v != w {
      SameSentSameAnswers(w, v);
      assert Evolves(w, v, None);
      SentStaysSound(w, v, None);
      ReaderOnly(w, v, c);
    }
  }

  lemma StoppedSound(w: World, c: nat)
    requires Inv(w) && c in w.conns
    ensures var v := ReaderStep(w, Stop(c), c); Evolves(w, v, None) && ConnSound(v, c) && SentSound(v)
  {
    var v := ReaderStep(w, Stop(c), c);
    StopEvolves(w, c);
    SameSentSameAnswers(w, v);
    assert ConnSound(w, c);
    SentStaysSound(w, v, None);
  }

  lemma StopEvolves(w: World, c: nat)
    requires Inv(w) && c in w.conns
    ensures Evolves(w, ReaderStep(w, Stop(c), c), None)
  {
    assert ConnSound(w, c);
    SameSentSameAnswers(w, ReaderStep(w, Stop(c), c));
  }

  lemma StopKeepsInv(w: World, c: nat)
    requires Inv(w) && c in w.conns
    ensures Inv(ReaderStep(w, Stop(c), c))
  {
    var v := ReaderStep(w, Stop(c), c);
    if v != w {
      StoppedSound(w, c);
      SameSentSameAnswers(w, v);
      ReaderOnly(w, v, c);
    }
  }

  lemma SentOneMore(w: World, v: World, r: nat, value: Value)
    requires v.sent == w.sent + [(r, value)]
    ensures forall q :: Answered(v, q) <==> Answered(w, q) || q == r
  {
    assert v.sent[|w.sent|].0 == r;
    forall q | Answered(w, q) ensures Answered(v, q) { AnsweredStays(w, v, q); }
  }

  lemma SendKeepsSentSound(w: World, v: World, r: nat, value: Value)
    requires SentSound(w) && v.sent == w.sent + [(r, value)] && Evolves(w, v, None)
    requires !Answered(w, r) && AnswerFits(v, r, value)
    ensures SentSound(v)
  {
    forall i | 0 <= i < |v.sent| ensures AnswerFits(v, v.sent[i].0, v.sent[i].1) {
      if i < |w.sent| { assert AnswerFits(w, w.sent[i].0, w.sent[i].1); }
    }
    forall i, j | 0 <= i < j < |v.sent| ensures v.sent[i].0 != v.sent[j].0 {
      if j == |w.sent| { assert w.sent[i].0 != r; }
    }
  }

  lemma DeliverKeepsInv(w: World, c: nat)
    requires Inv(w) && c in w.conns && w.conns[c].reader.Delivering?
    ensures Inv(ReaderStep(w, Deliver(c), c))
  {
    var v, reader := ReaderStep(w, Deliver(c), c), w.conns[c].reader;
    assert ConnSound(w, c) && HeldBy(w.conns[c], reader.req);
    SentOneMore(w, v, reader.req, reader.value);
    assert Evolves(w, v, None);
    SendKeepsSentSound(w, v, reader.req, reader.value);
    ReaderOnly(w, v, c);
  }

  lemma DrainedSound(w: World, c: nat)
    requires Inv(w) && c in w.conns && w.conns[c].reader.Draining? && w.conns[c].reader.left != []
    ensures var v, r := ReaderStep(w, DrainNext(c), c), w.conns[c].reader.left[0];
      && HeldBy(w.conns[c], r) && Evolves(w, v, None) && ConnSound(v, c)
      && v.sent == w.sent + [(r, ClosedMarker)] && !Answered(w, r) && AnswerFits(v, r, ClosedMarker)
  {
    var v, left := ReaderStep(w, DrainNext(c), c), w.conns[c].reader.left;
    assert ConnSound(w, c) && left[0] in left && left == [left[0]] + left[1..];
    assert HeldBy(w.conns[c], left[0]);
    SentOneMore(w, v, left[0], ClosedMarker);
    assert forall r :: r in left[1..] ==> r != left[0];
  }

  lemma DrainKeepsInv(w: World, c: nat)
    requires Inv(w) && c in w.conns && w.conns[c].reader.Draining? && w.conns[c].reader.left != []
    ensures Inv(ReaderStep(w, DrainNext(c), c))
  {
    var v, r := ReaderStep(w, DrainNext(c), c), w.conns[c].reader.left[0];
    DrainedSound(w, c);
    assert ConnSound(w, c);
    SentOneMore(w, v, r, ClosedMarker);
    SendKeepsSentSound(w, v, r, ClosedMarker);
    ReaderOnly(w, v, c);
  }

  lemma StepKeepsInv(w: World, step: Step)
    requires Inv(w)
    ensures Inv(Next(w, step))
  {
    if step.Begin? {
      BeginKeepsInv(w);
    } else if step.Arrive? || step.Deliver? || step.Close? || step.DrainNext? || step.Stop? {
      if step.c in w.conns {
        match step {
          case Arrive(c, value) => ArriveKeepsInv(w, c, value);
          case Deliver(c) => if w.conns[c].reader.Delivering? { DeliverKeepsInv(w, c); }
          case Close(c, order) => CloseKeepsInv(w, c, order);
          case DrainNext(c) => if w.conns[c].reader.Draining? && w.conns[c].reader.left != [] { DrainKeepsInv(w, c); }
          case Stop(c) => StopKeepsInv(w, c);
          case _ =>
        }
      }
    } else if step.k < |w.calls| {
      var k := step.k;
      assert CallSound(w, w.calls[k]);
      match step {
        case Connect(_, ok) =>
          if ok { if w.calls[k].Connecting? { ConnectKeepsInv(w, k); } } else { CallStepsAlone(w, step, k); }
        case Publish(_) =>
          if w.store.Some? { CallStepsAlone(w, step, k); } else if w.calls[k].Opened? { PublishKeepsInv(w, k); }
        case Insert(_) => if w.calls[k].Numbered? { InsertKeepsInv(w, k); }
        case RemoveFailed(_) => if w.calls[k].Failing? { RemoveKeepsInv(w, k, step); }
        case RemoveExpired(_) => if w.calls[k].Expired? { RemoveKeepsInv(w, k, step); }
        case SeeDropped(_) => if w.calls[k].Awaiting? { NeverDropped(w, k); }
        case _ => CallStepsAlone(w, step, k);
      }
    }
  }

  lemma BeginKeepsInv(w: World)
    requires Inv(w)
    ensures Inv(Next(w, Begin))
  {
    var v := Next(w, Begin);
    SameSentSameAnswers(w, v);
    assert Evolves(w, v, None);
    SentStaysSound(w, v, None);
    forall c | c in v.conns ensures ConnSound(v, c) { assert ConnSound(w, c); }
    forall i | 0 <= i < |v.calls| ensures CallSound(v, v.calls[i]) {
      if i < |w.calls| { CallStaysSound(w, v, None, w.calls[i]); }
    }
  }

  lemma {:induction false} RunKeepsInvFrom(w: World, steps: seq<Step>)
    requires Inv(w)
    ensures Inv(Run(w, steps))
    decreases |steps|
  {
    if steps != [] {
      RunKeepsInvFrom(w, steps[..|steps| - 1]);
      StepKeepsInv(Run(w, steps[..|steps| - 1]), steps[|steps| - 1]);
    }
  }

  lemma RunKeepsInv(steps: seq<Step>)
    ensures Inv(Run(INITIAL, steps))
  {
    RunKeepsInvFrom(INITIAL, steps);
  }

  // ------------------------------------------------------------------ theorems

  // A call that returns a value got the host's message for its own request id,
  // or the closed marker of its own connection, whose socket has indeed closed;
  // and no call ever sees its reply channel dropped.
  lemma {:induction false} OwnAnswer(steps: seq<Step>, k: nat)
    requires k < |Run(INITIAL, steps).calls| && Run(INITIAL, steps).calls[k].Finished?
    ensures var w := Run(INITIAL, steps); var call := w.calls[k];
      && call.outcome != ChannelDropped
      && (call.outcome.Returned? ==>
           var value := call.outcome.value;
           || (value.Message? && value.requestId == Some(call.req))
           || (value == ClosedMarker && call.conn in w.conns && Ended(w.conns[call.conn].reader)))
  {
    RunKeepsInv(steps);
    var w := Run(INITIAL, steps);
    assert CallSound(w, w.calls[k]);
    if w.calls[k].outcome.Returned? {
      var i :| 0 <= i < |w.sent| && w.sent[i] == (w.calls[k].req, w.calls[k].outcome.value);
      assert AnswerFits(w, w.sent[i].0, w.sent[i].1);
    }
  }

  // No request is answered twice, and no two calls share a request.
  lemma {:induction false} AnsweredOnce(steps: seq<Step>)
    ensures var w := Run(INITIAL, steps);
      && (forall i, j :: 0 <= i < j < |w.sent| ==> w.sent[i].0 != w.sent[j].0)
      && (forall i, j :: 0 <= i < j < |w.calls| && ReqOf(w.calls[i]).Some? ==> ReqOf(w.calls[i]) != ReqOf(w.calls[j]))
  {
    RunKeepsInv(steps);
  }

  // The connection a step's actor belongs to, if it may clear the store.
  function ClearerOf(w: World, step: Step): Option<nat> {
    if step.Stop? then Some(step.c)
    else if step.Clear? && step.k < |w.calls| && w.calls[step.k].Clearing? then Some(w.calls[step.k].conn)
    else None
  }

  // The current connection is evicted only by a step of that very connection,
  // never in favour of another, and an id once published is never given out again.
  lemma {:induction false} NewerNeverEvicted(steps: seq<Step>, step: Step, c: nat)
    requires Run(INITIAL, steps).store == Some(c) && Next(Run(INITIAL, steps), step).store != Some(c)
    ensures var w := Run(INITIAL, steps);
      Next(w, step).store == None && ClearerOf(w, step) == Some(c) && c < w.nextConn
  {
    RunKeepsInv(steps);
  }

  // A request inserted after its connection's reader drained the pending map:
  // nobody is left to answer it.
  ghost predicate Stranded(w: World, c: nat, r: nat) {
    && c in w.conns && Ended(w.conns[c].reader) && r in w.connOf && w.connOf[r] == c
    && !Answered(w, r) && (w.conns[c].reader.Draining? ==> r !in w.conns[c].reader.left)
  }

  lemma ReaderKeepsStranded(w: World, step: Step, c: nat, r: nat)
    requires Inv(w) && Stranded(w, c, r)
    requires (step.Arrive? || step.Deliver? || step.Close? || step.DrainNext? || step.Stop?) && step.c in w.conns
    ensures Stranded(ReaderStep(w, step, step.c), c, r)
  {
    var v, d := ReaderStep(w, step, step.c), step.c;
    assert ConnSound(w, d);
    if v.sent == w.sent {
      SameSentSameAnswers(w, v);
    } else if step.Deliver? {
      SentOneMore(w, v, w.conns[d].reader.req, w.conns[d].reader.value);
    } else {
      var left := w.conns[d].reader.left;
      assert HeldBy(w.conns[d], left[0]) && left == [left[0]] + left[1..];
      SentOneMore(w, v, left[0], ClosedMarker);
    }
  }

  lemma CallKeepsStranded(w: World, step: Step, k: nat, c: nat, r: nat)
    requires Inv(w) && Stranded(w, c, r) && k < |w.calls|
    ensures Stranded(CallStep(w, step, k), c, r)
  {
    SameSentSameAnswers(w, CallStep(w, step, k));
    assert CallSound(w, w.calls[k]) && ConnSound(w, c);
  }

  lemma StepKeepsStranded(w: World, step: Step, c: nat, r: nat)
    requires Inv(w) && Stranded(w, c, r)
    ensures Stranded(Next(w, step), c, r)
  {
    if step.Begin? {
      SameSentSameAnswers(w, Next(w, step));
    } else if step.Arrive? || step.Deliver? || step.Close? || step.DrainNext? || step.Stop? {
      if step.c in w.conns { ReaderKeepsStranded(w, step, c, r); }
    } else if step.k < |w.calls| {
      CallKeepsStranded(w, step, step.k, c, r);
    }
  }

  // Such a call cannot return a value, however long the run goes on.
  lemma {:induction false} StrandedNeverReturns(before: seq<Step>, c: nat, r: nat, after: seq<Step>, k: nat)
    requires Stranded(Run(INITIAL, before), c, r)
    requires var w := Run(Run(INITIAL, before), after); k < |w.calls| && w.calls[k].Finished? && w.calls[k].req == r
    ensures !Run(Run(INITIAL, before), after).calls[k].outcome.Returned?
  {
    RunKeepsInv(before);
    StrandedStays(Run(INITIAL, before), after, c, r);
    var w := Run(Run(INITIAL, before), after);
    assert CallSound(w, w.calls[k]);
    if w.calls[k].outcome.Returned? {
      SentIsAnswered(w, r, w.calls[k].outcome.value);
    }
  }

  lemma SentIsAnswered(w: World, r: nat, value: Value)
    requires (r, value) in w.sent
    ensures Answered(w, r)
  {
    var i :| 0 <= i < |w.sent| && w.sent[i] == (r, value);
    assert w.sent[i].0 == r;
  }

  lemma {:induction false} StrandedStays(w: World, steps: seq<Step>, c: nat, r: nat)
    requires Inv(w) && Stranded(w, c, r)
    ensures Inv(Run(w, steps)) && Stranded(Run(w, steps), c, r)
    decreases |steps|
  {
    if steps != [] {
      StrandedStays(w, steps[..|steps| - 1], c, r);
      StepKeepsInv(Run(w, steps[..|steps| - 1]), steps[|steps| - 1]);
      StepKeepsStranded(Run(w, steps[..|steps| - 1]), steps[|steps| - 1], c, r);
    }
  }

  // ------------------------------------------------------- stranded, exactly

  lemma RunOneMore(w: World, steps: seq<Step>, step: Step)
    ensures Run(w, steps + [step]) == Next(Run(w, steps), step)
  {
    assert (steps + [step])[..|steps|] == steps;
  }

  lemma {:induction false} RunAppend(w: World, a: seq<Step>, b: seq<Step>)
    ensures Run(w, a + b) == Run(Run(w, a), b)
    decreases |b|
  {
    if b == [] {
      assert a + b == a;
    } else {
      assert (a + b)[..|a + b| - 1] == a + b[..|b| - 1];
      RunAppend(w, a, b[..|b| - 1]);
    }
  }

  // The request was in the table when its connection was drained, or never was.
  ghost predicate NotLate(w: World, c: nat, r: nat) {
    c in w.conns && (Ended(w.conns[c].reader) ==> r !in w.conns[c].pending) && r in w.connOf
  }

  // Requests are inserted once, so what is not late stays so.
  lemma StepKeepsNotLate(w: World, step: Step, c: nat, r: nat)
    requires Inv(w) && NotLate(w, c, r)
    ensures NotLate(Next(w, step), c, r)
  {
    if step.Arrive? || step.Deliver? || step.Close? || step.DrainNext? || step.Stop? {
      if step.c in w.conns { ReaderKeepsNotLate(w, step, c, r); }
    } else if !step.Begin? && step.k < |w.calls| {
      CallKeepsNotLate(w, step, step.k, c, r);
    }
  }

  lemma ReaderKeepsNotLate(w: World, step: Step, c: nat, r: nat)
    requires NotLate(w, c, r) && (step.Arrive? || step.Deliver? || step.Close? || step.DrainNext? || step.Stop?)
    requires step.c in w.conns
    ensures NotLate(ReaderStep(w, step, step.c), c, r)
  {
  }

  lemma CallKeepsNotLate(w: World, step: Step, k: nat, c: nat, r: nat)
    requires Inv(w) && NotLate(w, c, r) && k < |w.calls|
    ensures NotLate(CallStep(w, step, k), c, r)
  {
    assert CallSound(w, w.calls[k]);
  }

  lemma {:induction false} RunKeepsNotLate(w: World, steps: seq<Step>, c: nat, r: nat)
    requires Inv(w) && NotLate(w, c, r)
    ensures Inv(Run(w, steps)) && NotLate(Run(w, steps), c, r)
    decreases |steps|
  {
    if steps != [] {
      var front := steps[..|steps| - 1];
      RunKeepsNotLate(w, front, c, r);
      StepKeepsInv(Run(w, front), steps[|steps| - 1]);
      StepKeepsNotLate(Run(w, front), steps[|steps| - 1], c, r);
    }
  }

  ghost predicate Returns(w: World, k: nat) {
    k < |w.calls| && w.calls[k].Finished? && w.calls[k].outcome.Returned?
  }

  // Whether the call can still return a value.
  ghost predicate CanReturn(w: World, k: nat) { exists steps :: Returns(Run(w, steps), k) }

  lemma ReceiveReturns(w: World, k: nat)
    requires k < |w.calls| && w.calls[k].Awaiting? && Answered(w, w.calls[k].req)
    ensures CanReturn(w, k)
  {
    var i :| 0 <= i < |w.sent| && w.sent[i].0 == w.calls[k].req;
    RunOneMore(w, [], Receive(k, w.sent[i].1));
    assert Returns(Run(w, [] + [Receive(k, w.sent[i].1)]), k);
  }

  // The drain goes on until the request's turn comes.
  lemma {:induction false} DrainReturns(w: World, c: nat, k: nat)
    requires k < |w.calls| && w.calls[k].Awaiting?
    requires c in w.conns && w.conns[c].reader.Draining? && w.calls[k].req in w.conns[c].reader.left
    ensures CanReturn(w, k)
    decreases if c in w.conns && w.conns[c].reader.Draining? then |w.conns[c].reader.left| else 0
  {
    var v, left := Next(w, DrainNext(c)), w.conns[c].reader.left;
    SentOneMore(w, v, left[0], ClosedMarker);
    if left[0] == w.calls[k].req {
      ReceiveReturns(v, k);
    } else {
      DrainReturns(v, c, k);
    }
    var rest :| Returns(Run(v, rest), k);
    RunOneMore(w, [], DrainNext(c));
    assert [] + [DrainNext(c)] == [DrainNext(c)];
    RunAppend(w, [DrainNext(c)], rest);
    assert Returns(Run(w, [DrainNext(c)] + rest), k);
  }

  lemma InsertStrands(w: World, k: nat)
    requires Inv(w) && k < |w.calls| && w.calls[k].Numbered?
    ensures var v, c, r := Next(w, Insert(k)), w.calls[k].conn, w.calls[k].req;
      && c in w.conns && v.calls[k] == Writing(c, r)
      && (if Ended(w.conns[c].reader) then Stranded(v, c, r) else NotLate(v, c, r))
  {
    assert CallSound(w, w.calls[k]) && ConnSound(w, w.calls[k].conn);
    AnsweredWasSent(w, w.calls[k].req);
    SameSentSameAnswers(w, Next(w, Insert(k)));
  }

  // From a sound state, a stranded call returns in no continuation.
  lemma StrandedCannotReturn(w: World, k: nat, c: nat, r: nat)
    requires Inv(w) && Stranded(w, c, r) && k < |w.calls| && ReqOf(w.calls[k]) == Some(r)
    ensures !CanReturn(w, k)
  {
    forall steps ensures !Returns(Run(w, steps), k) {
      StrandedStays(w, steps, c, r);
      RequestStays(w, steps, k);
      var v := Run(w, steps);
      assert CallSound(v, v.calls[k]);
      if Returns(v, k) { SentIsAnswered(v, r, v.calls[k].outcome.value); }
    }
  }

  // A call keeps its request number.
  lemma {:induction false} RequestStays(w: World, steps: seq<Step>, k: nat)
    requires k < |w.calls| && ReqOf(w.calls[k]).Some?
    ensures k < |Run(w, steps).calls| && ReqOf(Run(w, steps).calls[k]) == ReqOf(w.calls[k])
    decreases |steps|
  {
    if steps != [] {
      RequestStays(w, steps[..|steps| - 1], k);
      StepKeepsRequest(Run(w, steps[..|steps| - 1]), steps[|steps| - 1], k);
    }
  }

  lemma StepKeepsRequest(w: World, step: Step, k: nat)
    requires k < |w.calls| && ReqOf(w.calls[k]).Some?
    ensures k < |Next(w, step).calls| && ReqOf(Next(w, step).calls[k]) == ReqOf(w.calls[k])
  {
    if step.Begin? {
    } else if step.Arrive? || step.Deliver? || step.Close? || step.DrainNext? || step.Stop? {
      assert Next(w, step).calls == w.calls;
    } else if step.k < |w.calls| {
      assert step.k != k ==> CallStep(w, step, step.k).calls[k] == w.calls[k];
      if step.k == k { CallKeepsRequest(w, step, k); }
    }
  }

  lemma CallKeepsRequest(w: World, step: Step, k: nat)
    requires k < |w.calls| && ReqOf(w.calls[k]).Some?
    ensures ReqOf(CallStep(w, step, k).calls[k]) == ReqOf(w.calls[k])
  {
  }

  // A call awaiting its reply on a connection that has ended can still return a
  // value exactly if its request went into the pending map before the socket
  // closed.
  lemma {:induction false} AwaitingCanReturn(before: seq<Step>, w: World, after: seq<Step>, v: World, k: nat)
    requires w == Run(INITIAL, before) && k < |w.calls| && w.calls[k].Numbered? && w.calls[k].conn in w.conns
    requires v == Run(Next(w, Insert(k)), after) && k < |v.calls| && v.calls[k].Awaiting?
    requires v.calls[k].conn in v.conns && Ended(v.conns[v.calls[k].conn].reader)
    ensures v.calls[k].conn == w.calls[k].conn && v.calls[k].req == w.calls[k].req
    ensures CanReturn(v, k) <==> !Ended(w.conns[w.calls[k].conn].reader)
  {
    var c, r, u := w.calls[k].conn, w.calls[k].req, Next(w, Insert(k));
    RunKeepsInv(before);
    StepKeepsInv(w, Insert(k));
    InsertStrands(w, k);
    RequestStays(u, after, k);
    if Ended(w.conns[c].reader) {
      StrandedStays(u, after, c, r);
      StrandedCannotReturn(v, k, c, r);
    } else {
      RunKeepsNotLate(u, after, c, r);
      assert u.connOf[r] == c;
    }
    ConnOfStays(u, after, r);
    assert CallSound(v, v.calls[k]);
    if !Ended(w.conns[c].reader) {
      if Answered(v, r) { ReceiveReturns(v, k); } else { DrainReturns(v, c, k); }
    }
  }

  lemma {:induction false} ConnOfStays(w: World, steps: seq<Step>, r: nat)
    requires Inv(w) && r in w.connOf
    ensures r in Run(w, steps).connOf && Run(w, steps).connOf[r] == w.connOf[r]
    decreases |steps|
  {
    if steps != [] {
      var front := steps[..|steps| - 1];
      ConnOfStays(w, front, r);
      RunKeepsInvFrom(w, front);
      StepKeepsConnOf(Run(w, front), steps[|steps| - 1], r);
    }
  }

  lemma StepKeepsConnOf(w: World, step: Step, r: nat)
    requires Inv(w) && r in w.connOf
    ensures r in Next(w, step).connOf && Next(w, step).connOf[r] == w.connOf[r]
  {
    if step.Insert? && step.k < |w.calls| { assert CallSound(w, w.calls[step.k]); }
  }

  lemma RunTwo(w: World, a: Step, b: Step)
    ensures Run(w, [a, b]) == Next(Next(w, a), b)
  {
    RunOneMore(w, [], a);
    RunOneMore(w, [a], b);
    assert [] + [a] == [a] && [a] + [b] == [a, b];
  }

  // A call numbered on its connection, about to insert its request.
  lemma NumberedCall() returns (steps: seq<Step>)
    ensures var w := Run(INITIAL, steps);
      w.calls == [Numbered(1, 1)] && w.conns == map[1 := Conn({}, Reading)] && w.connOf == map[] && w.sent == []
  {
    var first, second := [Begin, Lookup(0)], [Connect(0, true), Publish(0)];
    ConnectingCall();
    var a := Run(INITIAL, first);
    RunTwo(a, Connect(0, true), Publish(0));
    ConnectedCall(a);
    RunAppend(INITIAL, first, second);
    RunOneMore(INITIAL, first + second, Number(0));
    steps := first + second + [Number(0)];
  }

  lemma ConnectingCall()
    ensures Run(INITIAL, [Begin, Lookup(0)]) == INITIAL.(calls := [Connecting])
  {
    RunTwo(INITIAL, Begin, Lookup(0));
    assert [] + [Starting] == [Starting];
  }

  lemma ConnectedCall(w: World)
    requires w == INITIAL.(calls := [Connecting])
    ensures var v := Next(Next(w, Connect(0, true)), Publish(0));
      v.calls == [Connected(1)] && v.conns == map[1 := Conn({}, Reading)] && v.connOf == map[] && v.sent == []
        && v.nextReq == 1
  {
    var a := Next(w, Connect(0, true));
    assert a.calls == [Opened(1)] && a.conns == map[1 := Conn({}, Unspawned)] && a.store == None;
  }

  lemma ClosedThenInserted(w: World)
    requires w.calls == [Numbered(1, 1)] && w.conns == map[1 := Conn({}, Reading)] && w.connOf == map[] && w.sent == []
    ensures var v := Next(Next(w, Close(1, [])), Insert(0));
      v.calls == [Writing(1, 1)] && v.conns == map[1 := Conn({1}, Draining([]))] && v.connOf == map[1 := 1]
        && v.sent == []
  {
    var a := Next(w, Close(1, []));
    assert Enumerates([], {});
    assert a.conns == map[1 := Conn({}, Draining([]))] && a.calls == w.calls;
    assert {} + {1} == {1};
  }

  lemma ClosedAndWritten(w: World) returns (steps: seq<Step>)
    requires w.calls == [Numbered(1, 1)] && w.conns == map[1 := Conn({}, Reading)] && w.connOf == map[] && w.sent == []
    ensures var v := Run(w, steps); v.calls == [Awaiting(1, 1)] && Stranded(v, 1, 1)
  {
    var closed := [Close(1, []), Insert(0)];
    RunTwo(w, Close(1, []), Insert(0));
    ClosedThenInserted(w);
    RunOneMore(w, closed, Write(0, true));
    steps := closed + [Write(0, true)];
  }

  // A run that strands a call: the socket closes between the moment the call
  // takes its connection and the moment it inserts its request.
  lemma StrandedHappens() returns (steps: seq<Step>)
    ensures var w := Run(INITIAL, steps);
      w.calls == [Awaiting(1, 1)] && Stranded(w, 1, 1) && !CanReturn(w, 0)
  {
    var front := NumberedCall();
    var rest := ClosedAndWritten(Run(INITIAL, front));
    steps := front + rest;
    RunAppend(INITIAL, front, rest);
    RunKeepsInv(steps);
    StrandedCannotReturn(Run(INITIAL, steps), 0, 1, 1);
  }

  // ----------------------------------------------------------- newer connections

  // No step of the run is connection `c`'s own clearing of the store.
  ghost predicate OthersClear(w: World, steps: seq<Step>, c: nat)
    decreases |steps|
  {
    steps == []
    || (OthersClear(w, steps[..|steps| - 1], c)
        && ClearerOf(Run(w, steps[..|steps| - 1]), steps[|steps| - 1]) != Some(c))
  }

  // A published connection stays in the store through any steps of the others,
  // older or newer: their readers' ends, their failed writes, their reconnects.
  lemma {:induction false} PublishedStays(before: seq<Step>, w: World, after: seq<Step>, c: nat)
    requires w == Run(INITIAL, before) && w.store == Some(c) && OthersClear(w, after, c)
    ensures Run(w, after).store == Some(c)
    decreases |after|
  {
    if after != [] {
      var front := after[..|after| - 1];
      PublishedStays(before, w, front, c);
      RunAppend(INITIAL, before, front);
      StoreMoves(Run(w, front), after[|after| - 1], c);
    }
  }

  lemma StoreMoves(w: World, step: Step, c: nat)
    requires w.store == Some(c) && ClearerOf(w, step) != Some(c)
    ensures Next(w, step).store == Some(c)
  {
  }

  // ------------------------------------------------------------ one connection

  ghost function FirstFor(frames: seq<Value>, r: nat): Value {
    if frames == [] then ClosedMarker
    else if frames[0].Message? && frames[0].requestId == Some(r) then frames[0]
    else FirstFor(frames[1..], r)
  }

  /** A connection's pending map, and what its waiters have been sent. */
  class PendingRequests {
    var waiting: set<nat>
    var answers: map<nat, Value>

    // `socket_reader_task`, undisturbed, from its first frame to the close of the
    // socket: each waiter gets the first frame carrying its id, or the marker.
    method ReadSocket(frames: seq<Value>)
      requires answers == map[]
      modifies this
      ensures waiting == {}
      ensures answers == map r | r in old(waiting) :: FirstFor(frames, r)
    {
      ghost var all := waiting;
      assert frames[0..] == frames;
      for i := 0 to |frames|
        invariant waiting <= all && answers.Keys == all - waiting
        invariant forall r :: r in answers ==> answers[r] == FirstFor(frames, r)
        invariant forall r :: r in waiting ==> FirstFor(frames[i..], r) == FirstFor(frames, r)
      {
        assert frames[i..][1..] == frames[i + 1..];
        var value := frames[i];
        if value.Message? && value.requestId.Some? && value.requestId.value in waiting {
          waiting := waiting - {value.requestId.value};
          answers := answers[value.requestId.value := value];
        }
      }
      var left := waiting;
      waiting := {};
      while left != {}
        invariant left <= all && answers.Keys == all - left && waiting == {}
        invariant forall r :: r in answers ==> answers[r] == FirstFor(frames, r)
        invariant forall r :: r in left ==> FirstFor(frames, r) == ClosedMarker
      {
        var r :| r in left;
        left := left - {r};
        answers := answers[r := ClosedMarker];
      }
    }
  }
}
