/** JSON-RPC 2.0 envelopes: parsing inbound frames, building outbound ones, and
    pairing a batch's replies with its requests (`jsonrpc.rs`). Text has already
    been parsed to `Json` here. */
module Jsonrpc {
  import opened Wrappers
  import opened RequestIds

  // What the JSON library keeps of a number: an integer that fits i64 or u64,
  // or a float.
  type WireInt = i: int | -0x8000_0000_0000_0000 <= i < 0x1_0000_0000_0000_0000
  datatype Numeral = Integer(i: WireInt) | Float

  datatype Json =
    | JNull
    | JBool(b: bool)
    | JNum(num: Numeral)
    | JStr(s: string)
    | JArr(items: seq<Json>)
    | JObj(fields: map<string, Json>)

  type ErrorCode = c: int | -0x8000_0000 <= c < 0x8000_0000
  datatype Error = Error(code: ErrorCode, message: string, data: Option<Json>)

  const INTERNAL_ERROR := Error(-32603, "Internal error", None)

  function ParseError(detail: string): Error { Error(-32700, "Parse error", Some(JStr(detail))) }

  function InvalidRequest(reason: string): Error { Error(-32600, "Invalid request", Some(JStr(reason))) }

  datatype Entry =
    | Request(id: RequestId, method_: string, params: Option<Json>)
    | Notification(method_: string, params: Option<Json>)
    | Response(id: RequestId, result: Option<Json>, error: Option<Json>)

  datatype Message = Single(entry: Entry) | Batch(entries: seq<Entry>)

  // One input line: only white space, not JSON, or a JSON value.
  datatype Line = Blank | Malformed(detail: string) | Parsed(value: Json)

  function Field(fields: map<string, Json>, name: string): Option<Json> {
    if name in fields then Some(fields[name]) else None
  }

  // ------------------------------------------------------------------- parsing

  function ParseRequestId(value: Option<Json>): Result<RequestId, Error> {
    match value
    case None => Ok(Null)
    case Some(JNull) => Ok(Null)
    case Some(JNum(Integer(i))) =>
      // A value above i64::MAX is read as u64 and cast, which wraps.
      Ok(Number((if i < 0x8000_0000_0000_0000 then i else i - 0x1_0000_0000_0000_0000) as Int64))
    case Some(JNum(Float)) => Err(InvalidRequest("numeric request id out of range"))
    case Some(JStr(s)) => Ok(Str(s))
    case _ => Err(InvalidRequest("invalid request id type"))
  }

  function ParseParams(value: Option<Json>): Option<Json> {
    if value == Some(JNull) then None else value
  }

  function ParseSingle(value: Json): Result<Entry, Error> {
    if !value.JObj? then Err(InvalidRequest("each batch element must be a JSON object"))
    else
      var o := value.fields;
      if "jsonrpc" in o && o["jsonrpc"] != JStr("2.0") then Err(InvalidRequest("only jsonrpc 2.0 is supported"))
      else if "result" in o && "error" in o then
        Err(InvalidRequest("response cannot contain both result and error"))
      else if "result" in o || "error" in o then
        match ParseRequestId(Field(o, "id"))
        case Err(e) => Err(e)
        case Ok(id) => Ok(Response(id, Field(o, "result"), Field(o, "error")))
      else if "method" !in o || !o["method"].JStr? then Err(InvalidRequest("missing 'method' field"))
      else if "id" in o then
        match ParseRequestId(Field(o, "id"))
        case Err(e) => Err(e)
        case Ok(id) => Ok(Request(id, o["method"].s, ParseParams(Field(o, "params"))))
      else
        Ok(Notification(o["method"].s, ParseParams(Field(o, "params"))))
  }

  function ParseAll(items: seq<Json>): Result<seq<Entry>, Error> {
    if items == [] then Ok([])
    else
      match ParseSingle(items[0])
      case Err(e) => Err(e)
      case Ok(entry) =>
        match ParseAll(items[1..])
        case Err(e) => Err(e)
        case Ok(entries) => Ok([entry] + entries)
  }

  function FrameOf(line: Line): Result<Option<Message>, Error> {
    match line
    case Blank => Ok(None)
    case Malformed(detail) => Err(ParseError(detail))
    case Parsed(JArr(items)) =>
      if items == [] then Err(InvalidRequest("empty batch is not allowed by JSON-RPC 2.0"))
      else
        (match ParseAll(items)
         case Err(e) => Err(e)
         case Ok(entries) => Ok(Some(Batch(entries))))
    case Parsed(JObj(fields)) =>
      (match ParseSingle(JObj(fields))
       case Err(e) => Err(e)
       case Ok(entry) => Ok(Some(Single(entry))))
    case Parsed(_) => Ok(None)
  }

  method ParseFrame(line: Line) returns (r: Result<Option<Message>, Error>)
    ensures r == FrameOf(line)
  {
    if line.Blank? {
      return Ok(None);
    }
    if line.Malformed? {
      return Err(ParseError(line.detail));
    }
    match line.value {
      case JArr(items) =>
        if items == [] {
          return Err(InvalidRequest("empty batch is not allowed by JSON-RPC 2.0"));
        }
        var entries: seq<Entry> := [];
        assert items[0..] == items;
        assert ParseAll(items).Ok? ==> entries + ParseAll(items).value == ParseAll(items).value;
        for i := 0 to |items|
          invariant ParseAll(items) == Prepended(entries, ParseAll(items[i..]))
        {
          var entry := ParseSingle(items[i]);
          assert items[i..][1..] == items[i + 1..];
          if entry.Err? {
            return Err(entry.error);
          }
          PrependedTwice(entries, entry.value, ParseAll(items[i + 1..]));
          entries := entries + [entry.value];
        }
        assert entries + [] == entries;
        return Ok(Some(Batch(entries)));
      case JObj(_) =>
        var entry := ParseSingle(line.value);
        return if entry.Ok? then Ok(Some(Single(entry.value))) else Err(entry.error);
      case _ =>
        return Ok(None);
    }
  }

  ghost function Prepended(front: seq<Entry>, rest: Result<seq<Entry>, Error>): Result<seq<Entry>, Error> {
    if rest.Ok? then Ok(front + rest.value) else rest
  }

  lemma PrependedTwice(front: seq<Entry>, entry: Entry, rest: Result<seq<Entry>, Error>)
    ensures Prepended(front, Prepended([entry], rest)) == Prepended(front + [entry], rest)
  {
    if rest.Ok? {
      assert front + ([entry] + rest.value) == front + [entry] + rest.value;
    }
  }

  // A batch parses iff all of its elements do, to one entry per element; when it
  // fails, the error is that of the first element that does not parse.
  lemma {:induction false} BatchParses(items: seq<Json>)
    ensures ParseAll(items).Ok? <==> forall i :: 0 <= i < |items| ==> ParseSingle(items[i]).Ok?
    ensures ParseAll(items).Ok? ==>
      && |ParseAll(items).value| == |items|
      && forall i :: 0 <= i < |items| ==> ParseSingle(items[i]) == Ok(ParseAll(items).value[i])
    ensures ParseAll(items).Err? ==>
      exists i :: 0 <= i < |items| && ParseSingle(items[i]) == Err(ParseAll(items).error) &&
        forall j :: 0 <= j < i ==> ParseSingle(items[j]).Ok?
  {
    if items != [] {
      var rest := items[1..];
      BatchParses(rest);
      assert forall i :: 0 <= i < |rest| ==> items[i + 1] == rest[i];
      assert forall i :: 0 < i < |items| ==> items[i] == rest[i - 1];
      if ParseSingle(items[0]).Err? {
        assert ParseSingle(items[0]) == Err(ParseAll(items).error);
      } else if ParseAll(rest).Err? {
        var i :| 0 <= i < |rest| && ParseSingle(rest[i]) == Err(ParseAll(rest).error) &&
          forall j :: 0 <= j < i ==> ParseSingle(rest[j]).Ok?;
        assert ParseSingle(items[i + 1]) == Err(ParseAll(items).error);
      }
    }
  }

  // ------------------------------------------------- what the parser accepts

  // How an id of the protocol is written: absent or null, a string, or an
  // integer, which stands for its residue in 64 bits.
  ghost predicate WritesId(value: Option<Json>, id: RequestId) {
    match id
    case Null => value == None || value == Some(JNull)
    case Str(s) => value == Some(JStr(s))
    case Number(n) =>
      value.Some? && value.value.JNum? && value.value.num.Integer?
      && exists wraps: int :: value.value.num.i == n as int + wraps * 0x1_0000_0000_0000_0000
  }

  ghost predicate WritesParams(value: Option<Json>, params: Option<Json>) {
    if params.None? then value == None || value == Some(JNull) else value == params && params != Some(JNull)
  }

  // The value is an object of version 2.0, if it says which, that writes the
  // entry.
  ghost predicate Writes(value: Json, entry: Entry) {
    && value.JObj? && ("jsonrpc" in value.fields ==> value.fields["jsonrpc"] == JStr("2.0"))
    && var o := value.fields;
       match entry
       case Response(id, result, error) =>
         && WritesId(Field(o, "id"), id) && (result.Some? <==> error.None?)
         && Field(o, "result") == result && Field(o, "error") == error
       case Request(id, name, params) =>
         && "id" in o && WritesId(Field(o, "id"), id) && Field(o, "method") == Some(JStr(name))
         && WritesParams(Field(o, "params"), params) && "result" !in o && "error" !in o
       case Notification(name, params) =>
         && "id" !in o && Field(o, "method") == Some(JStr(name))
         && WritesParams(Field(o, "params"), params) && "result" !in o && "error" !in o
  }

  lemma IdReadExactly(value: Option<Json>, id: RequestId)
    ensures ParseRequestId(value) == Ok(id) <==> WritesId(value, id)
  {
    if value.Some? && value.value.JNum? && value.value.num.Integer? && id.Number? {
      var i: int, n: int := value.value.num.i, id.n as int;
      assert i == i + 0 * 0x1_0000_0000_0000_0000;
      assert i == (i - 0x1_0000_0000_0000_0000) + 1 * 0x1_0000_0000_0000_0000;
      if WritesId(value, id) {
        var wraps: int :| i == n + wraps * 0x1_0000_0000_0000_0000;
        assert wraps == 0 || wraps == 1;
      }
    }
  }

  // Exactly the objects that write an entry are parsed, and to that entry.
  lemma ReadExactly(value: Json, entry: Entry)
    ensures ParseSingle(value) == Ok(entry) <==> Writes(value, entry)
  {
    if value.JObj? {
      var id := Field(value.fields, "id");
      if !entry.Notification? { IdReadExactly(id, entry.id); }
      if ParseRequestId(id).Ok? { IdReadExactly(id, ParseRequestId(id).value); }
    }
  }

  // What a line yields: nothing if it is blank or a bare literal, one entry if it
  // is an object that writes it, a batch if it is a non-empty array whose elements
  // write its entries. Text that is no JSON is a parse error, any other failure an
  // invalid request (section 5.1 of the JSON-RPC 2.0 specification).
  lemma LineReadExactly(line: Line, entry: Entry, entries: seq<Entry>)
    ensures FrameOf(line) == Ok(None) <==> line.Blank? || (line.Parsed? && !line.value.JArr? && !line.value.JObj?)
    ensures FrameOf(line) == Ok(Some(Single(entry))) <==> line.Parsed? && Writes(line.value, entry)
    ensures FrameOf(line) == Ok(Some(Batch(entries))) <==>
      line.Parsed? && line.value.JArr? && line.value.items != [] && |line.value.items| == |entries|
      && forall i :: 0 <= i < |entries| ==> Writes(line.value.items[i], entries[i])
    ensures FrameOf(line).Err? ==> FrameOf(line).error.code == if line.Malformed? then -32700 else -32600
  {
    if line.Parsed? {
      ReadExactly(line.value, entry);
      if line.value.JArr? { BatchReadExactly(line.value.items, entries); }
      if line.value.JObj? { ErrorsAreInvalid(line.value); }
    }
  }

  lemma ErrorsAreInvalid(value: Json)
    ensures ParseSingle(value).Err? ==> ParseSingle(value).error.code == -32600
  {
  }

  lemma BatchReadExactly(items: seq<Json>, entries: seq<Entry>)
    ensures ParseAll(items) == Ok(entries) <==>
      |items| == |entries| && forall i :: 0 <= i < |entries| ==> Writes(items[i], entries[i])
    ensures ParseAll(items).Err? ==> ParseAll(items).error.code == -32600
  {
    BatchParses(items);
    forall i | 0 <= i < |items| && i < |entries|
      ensures ParseSingle(items[i]) == Ok(entries[i]) <==> Writes(items[i], entries[i])
    {
      ReadExactly(items[i], entries[i]);
    }
    if ParseAll(items).Err? {
      var i :| 0 <= i < |items| && ParseSingle(items[i]) == Err(ParseAll(items).error);
      ErrorsAreInvalid(items[i]);
    } else if |items| == |entries| {
      if forall i :: 0 <= i < |entries| ==> Writes(items[i], entries[i]) {
        assert ParseAll(items).value == entries;
      }
    }
  }

  // ------------------------------------------------------------------ building

  function IdJson(id: RequestId): Json {
    match id
    case Number(n) => JNum(Integer(n as int))
    case Str(s) => JStr(s)
    case Null => JNull
  }

  function ErrorJson(e: Error): Json {
    var fields := map["code" := JNum(Integer(e.code)), "message" := JStr(e.message)];
    JObj(if e.data.Some? then fields["data" := e.data.value] else fields)
  }

  function BuildResponse(id: RequestId, result: Result<Json, Error>): Json {
    match result
    case Ok(value) => JObj(map["jsonrpc" := JStr("2.0"), "id" := IdJson(id), "result" := value])
    case Err(e) => JObj(map["jsonrpc" := JStr("2.0"), "id" := IdJson(id), "error" := ErrorJson(e)])
  }

  function BuildNotification(name: string, params: Json): Json {
    JObj(map["jsonrpc" := JStr("2.0"), "method" := JStr(name), "params" := params])
  }

  function BuildRequest(id: RequestId, name: string, params: Json): Json {
    JObj(map["jsonrpc" := JStr("2.0"), "id" := IdJson(id), "method" := JStr(name), "params" := params])
  }

  // An error object of section 5.1 of the JSON-RPC 2.0 specification.
  ghost predicate IsErrorObject(value: Json, e: Error) {
    && value.JObj?
    && value.fields.Keys == {"code", "message"} + (if e.data.Some? then {"data"} else {})
    && value.fields["code"] == JNum(Integer(e.code)) && value.fields["message"] == JStr(e.message)
    && (e.data.Some? ==> value.fields["data"] == e.data.value)
  }

  // What a peer should read back from a reply.
  ghost predicate Tells(entry: Entry, id: RequestId, result: Result<Json, Error>) {
    && entry.Response? && entry.id == id
    && match result
       case Ok(value) => entry.result == Some(value) && entry.error == None
       case Err(e) => entry.result == None && entry.error.Some? && IsErrorObject(entry.error.value, e)
  }

  ghost predicate Versioned(value: Json) {
    value.JObj? && "jsonrpc" in value.fields && value.fields["jsonrpc"] == JStr("2.0")
  }

  lemma ErrorObjectSays(e: Error)
    ensures IsErrorObject(ErrorJson(e), e)
  {
  }

  // Parsing a built envelope gives back its kind, id, method and payload, an
  // error's code, message and data among it. Null parameters, and only those,
  // become absent ones.
  lemma EnvelopeRoundTrip(id: RequestId, name: string, params: Json, result: Result<Json, Error>)
    ensures Versioned(BuildResponse(id, result)) && Versioned(BuildRequest(id, name, params))
      && Versioned(BuildNotification(name, params))
    ensures var read := ParseSingle(BuildResponse(id, result)); read.Ok? && Tells(read.value, id, result)
    ensures ParseSingle(BuildRequest(id, name, params)) ==
      Ok(Request(id, name, if params == JNull then None else Some(params)))
    ensures ParseSingle(BuildNotification(name, params)) ==
      Ok(Notification(name, if params == JNull then None else Some(params)))
  {
    IdParses(id);
    ResponseTells(id, result);
  }

  lemma IdParses(id: RequestId)
    ensures ParseRequestId(Some(IdJson(id))) == Ok(id)
  {
  }

  lemma ResponseTells(id: RequestId, result: Result<Json, Error>)
    ensures var read := ParseSingle(BuildResponse(id, result)); read.Ok? && Tells(read.value, id, result)
  {
    IdParses(id);
    if result.Err? { ErrorObjectSays(result.error); }
  }

  // A reply carries the id the peer sent exactly when that id is no integer of
  // 2^63 or more: such an id is accepted but comes back negative.
  lemma RequestIdEchoed(value: Json)
    requires ParseRequestId(Some(value)).Ok?
    ensures IdJson(ParseRequestId(Some(value)).value) == value <==>
      !(value.JNum? && value.num.Integer? && value.num.i >= 0x8000_0000_0000_0000)
  {
  }

  // ------------------------------------------------------------- batch replies

  datatype Reply = Reply(id: RequestId, result: Result<Json, Error>)

  // The ids that are owed a reply, in order.
  function RequestIdsOf(entries: seq<Entry>): seq<RequestId> {
    if entries == [] then []
    else (if entries[0].Request? then [entries[0].id] else []) + RequestIdsOf(entries[1..])
  }

  function ResultAt(results: seq<Result<Json, Error>>, k: nat): Result<Json, Error> {
    if k < |results| then results[k] else Err(INTERNAL_ERROR)
  }

  function Replies(entries: seq<Entry>, results: seq<Result<Json, Error>>, next: nat): seq<Reply> {
    if entries == [] then []
    else if entries[0].Request? then
      [Reply(entries[0].id, ResultAt(results, next))]
      + Replies(entries[1..], results, next + 1)
    else Replies(entries[1..], results, next)
  }

  function ReplyItems(replies: seq<Reply>): seq<Json> {
    seq(|replies|, i requires 0 <= i < |replies| => BuildResponse(replies[i].id, replies[i].result))
  }

  ghost predicate Paired(replies: seq<Reply>, ids: seq<RequestId>, results: seq<Result<Json, Error>>, next: nat) {
    && |replies| == |ids|
    && forall k :: 0 <= k < |ids| ==> replies[k] == Reply(ids[k], ResultAt(results, next + k))
  }

  lemma PairedOneMore(replies: seq<Reply>, ids: seq<RequestId>, results: seq<Result<Json, Error>>, next: nat,
      id: RequestId)
    requires Paired(replies, ids, results, next + 1)
    ensures Paired([Reply(id, ResultAt(results, next))] + replies, [id] + ids, results, next)
  {
  }

  // The k-th reply answers the k-th request with the k-th result; a missing
  // result becomes an internal error, a surplus one is ignored.
  lemma {:induction false} BatchPairing(entries: seq<Entry>, results: seq<Result<Json, Error>>, next: nat)
    ensures Paired(Replies(entries, results, next), RequestIdsOf(entries), results, next)
  {
    if entries != [] {
      var rest := entries[1..];
      if entries[0].Request? {
        BatchPairing(rest, results, next + 1);
        PairedOneMore(Replies(rest, results, next + 1), RequestIdsOf(rest), results, next, entries[0].id);
      } else {
        BatchPairing(rest, results, next);
        assert RequestIdsOf(entries) == RequestIdsOf(rest);
      }
    }
  }

  method BuildBatchResponse(entries: seq<Entry>, results: seq<Result<Json, Error>>) returns (batch: Option<Json>)
    ensures batch == None <==> RequestIdsOf(entries) == []
    ensures batch.Some? ==> batch.value == JArr(ReplyItems(Replies(entries, results, 0)))
  {
    BatchPairing(entries, results, 0);
    var responses: seq<Json> := [];
    ghost var replies: seq<Reply> := [];
    var resultIdx := 0;
    for i := 0 to |entries|
      invariant responses == ReplyItems(replies)
      invariant Replies(entries, results, 0) == replies + Replies(entries[i..], results, resultIdx)
    {
      assert entries[i..][1..] == entries[i + 1..];
      if entries[i].Request? {
        var result := if resultIdx < |results| then results[resultIdx] else Err(INTERNAL_ERROR);
        responses := responses + [BuildResponse(entries[i].id, result)];
        replies := replies + [Reply(entries[i].id, result)];
        resultIdx := resultIdx + 1;
      }
    }
    if responses == [] {
      return None;
    }
    return Some(JArr(responses));
  }

  // What the peer reads back from a batch reply is one response per request, in
  // request order, under the request's id and with its result; a request left
  // without one is told of an internal error.
  lemma BatchReplyReadBack(entries: seq<Entry>, results: seq<Result<Json, Error>>)
    requires RequestIdsOf(entries) != []
    ensures var ids, read := RequestIdsOf(entries), FrameOf(Parsed(JArr(ReplyItems(Replies(entries, results, 0)))));
      && read.Ok? && read.value.Some? && read.value.value.Batch?
      && |read.value.value.entries| == |ids|
      && forall k :: 0 <= k < |ids| ==>
        Tells(read.value.value.entries[k], ids[k],
              if k < |results| then results[k] else Err(Error(-32603, "Internal error", None)))
  {
    var replies := Replies(entries, results, 0);
    var items := ReplyItems(replies);
    BatchPairing(entries, results, 0);
    forall k | 0 <= k < |items|
      ensures ParseSingle(items[k]).Ok? && Tells(ParseSingle(items[k]).value, replies[k].id, replies[k].result)
    {
      ResponseTells(replies[k].id, replies[k].result);
    }
    BatchParses(items);
  }
}
