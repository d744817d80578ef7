/** The JSON-RPC 2.0 handler: one request or a batch in, dispatches in order, responses out. */
module RpcHttpServer {
  import opened Json

  const PARSE_ERROR: JsonInt := -32700
  const INVALID_REQUEST: JsonInt := -32600
  const INVALID_PARAMS: JsonInt := -32602
  const METHOD_NOT_FOUND: JsonInt := -32601
  const SERVER_ERROR: JsonInt := -32000

  datatype Call = Call(name: string, params: seq<Json>)
  datatype Answer = Answered(value: Json) | Failed(error: string)

  /** The six methods whose upstream form takes one more positional flag than clients send. */
  const TAKES_OPTIMISTIC_STATE_FETCH: set<string> :=
    {"eth_call", "eth_estimateGas", "eth_createAccessList", "op_call", "op_estimateGas", "op_createAccessList"}

  // ---------------------------------------------------------------------------
  // What the responses should be
  // ---------------------------------------------------------------------------

  function ErrorObject(code: JsonInt, message: string): Json {
    JObject(map[Code := JInt(code), Message := JString(message)])
  }

  function ResponseEnvelope(id: Json, result: Json): Json {
    JObject(map[JsonRpc := JString("2.0"), Id := id, ResultKey := result])
  }

  function ErrorEnvelope(id: Json, code: JsonInt, message: string): Json {
    JObject(map[JsonRpc := JString("2.0"), Id := id, ErrorKey := ErrorObject(code, message)])
  }

  /** Only an object with an id that is not null is answered. */
  predicate Responds(req: Json) {
    req.JObject? && Id in req.fields && !req.fields[Id].JNull?
  }

  predicate IsCall(req: Json) {
    && req.JObject?
    && Method in req.fields && req.fields[Method].JString?
    && (Params in req.fields ==> req.fields[Params].JNull? || req.fields[Params].JArray?)
  }

  function GivenParams(req: Json): seq<Json>
    requires req.JObject?
  {
    if Params in req.fields && req.fields[Params].JArray? then req.fields[Params].items else []
  }

  function Adapted(name: string, params: seq<Json>): seq<Json> {
    if name in TAKES_OPTIMISTIC_STATE_FETCH && |params| == 2 then params + [JBool(false)] else params
  }

  /** What is dispatched for one request: one call, or nothing. */
  function CallsOf(req: Json): seq<Call> {
    if IsCall(req) then [Call(req.fields[Method].s, Adapted(req.fields[Method].s, GivenParams(req)))] else []
  }

  function Calls(reqs: seq<Json>): seq<Call> {
    if reqs == [] then [] else CallsOf(reqs[0]) + Calls(reqs[1..])
  }

  predicate Mentions(text: string, part: string) {
    exists i :: 0 <= i <= |text| && StandsAt(text, part, i)
  }

  predicate StandsAt(text: string, part: string, i: nat)
    requires i <= |text|
  {
    part <= text[i..]
  }

  const UNKNOWN_METHOD: string := "unknown method"

  /** The response to a request that gets one, the dispatcher having seen this much so far. */
  function ResponseTo(req: Json, log: seq<Call>, answer: seq<Call> -> Answer): Json
    requires Responds(req)
  {
    var id := req.fields[Id];
    if IsCall(req) then
      match answer(log + CallsOf(req))
      case Answered(value) => ResponseEnvelope(id, value)
      case Failed(error) => ErrorEnvelope(id, if Mentions(error, UNKNOWN_METHOD) then METHOD_NOT_FOUND else SERVER_ERROR, error)
    else if Method !in req.fields || !req.fields[Method].JString? then
      ErrorEnvelope(id, INVALID_REQUEST, "'method' is required and must be a string")
    else ErrorEnvelope(id, INVALID_PARAMS, "'params' must be an array (named parameters are not supported)")
  }

  function Responses(reqs: seq<Json>, log: seq<Call>, answer: seq<Call> -> Answer): seq<Json> {
    if reqs == [] then []
    else
      (if Responds(reqs[0]) then [ResponseTo(reqs[0], log, answer)] else [])
      + Responses(reqs[1..], log + CallsOf(reqs[0]), answer)
  }

  // ---------------------------------------------------------------------------
  // What that means, request by request
  // ---------------------------------------------------------------------------

  /** Where a list of flags is true. */
  function Where(flags: seq<bool>): seq<nat> {
    if flags == [] then [] else (if flags[0] then [0] else []) + Shifted(Where(flags[1..]))
  }

  function Shifted(at: seq<nat>): seq<nat> {
    seq(|at|, k requires 0 <= k < |at| => at[k] + 1)
  }

  /** The positions found are exactly the true ones, in order. */
  lemma {:induction false} WhereIsExact(flags: seq<bool>)
    ensures forall j, k :: 0 <= j < k < |Where(flags)| ==> Where(flags)[j] < Where(flags)[k]
    ensures forall i: nat :: i in Where(flags) <==> i < |flags| && flags[i]
  {
    if flags != [] {
      var later := Where(flags[1..]);
      WhereIsExact(flags[1..]);
      ShiftedIsExact(later);
      WhereFromLater(flags[0], later, Where(flags));
      forall i: nat ensures i in Where(flags) <==> i < |flags| && flags[i] {
        if i > 0 { assert i in Where(flags) <==> i - 1 in later; }
      }
    }
  }

  /** What the first flag adds to the positions found behind it. */
  lemma WhereFromLater(first: bool, later: seq<nat>, at: seq<nat>)
    requires at == (if first then [0] else []) + Shifted(later)
    requires forall j, k :: 0 <= j < k < |later| ==> later[j] < later[k]
    ensures forall j, k :: 0 <= j < k < |at| ==> at[j] < at[k]
    ensures 0 in at <==> first
    ensures forall i: nat :: i > 0 ==> (i in at <==> i - 1 in later)
  {
    ShiftedIsExact(later);
    var n := if first then 1 else 0;
    assert forall k :: n <= k < |at| ==> at[k] == later[k - n] + 1;
    forall i: nat | i > 0 ensures i in at <==> i - 1 in later {
      assert i in at <==> i in Shifted(later);
    }
  }

  lemma ShiftedIsExact(at: seq<nat>)
    ensures forall i: nat :: i + 1 in Shifted(at) <==> i in at
    ensures 0 !in Shifted(at)
  {
    forall i: nat | i in at ensures i + 1 in Shifted(at) {
      var k :| 0 <= k < |at| && at[k] == i;
      assert Shifted(at)[k] == i + 1;
    }
  }

  function Asking(reqs: seq<Json>): seq<bool> {
    seq(|reqs|, i requires 0 <= i < |reqs| => Responds(reqs[i]))
  }

  function Calling(reqs: seq<Json>): seq<bool> {
    seq(|reqs|, i requires 0 <= i < |reqs| => IsCall(reqs[i]))
  }

  /** The response to the i-th request, after the dispatches of all requests before it. */
  ghost predicate Answers(r: Json, reqs: seq<Json>, i: nat, log: seq<Call>, answer: seq<Call> -> Answer) {
    i < |reqs| && Responds(reqs[i]) && r == ResponseTo(reqs[i], log + Calls(reqs[..i]), answer)
  }

  lemma AnswersLater(r: Json, reqs: seq<Json>, i: nat, log: seq<Call>, answer: seq<Call> -> Answer)
    requires reqs != [] && Answers(r, reqs[1..], i, log + CallsOf(reqs[0]), answer)
    ensures Answers(r, reqs, i + 1, log, answer)
  {
    var rest := reqs[1..];
    assert reqs[..i + 1][0] == reqs[0] && reqs[..i + 1][1..] == rest[..i];
    assert log + Calls(reqs[..i + 1]) == (log + CallsOf(reqs[0])) + Calls(rest[..i]);
  }

  lemma AnswersFirst(reqs: seq<Json>, log: seq<Call>, answer: seq<Call> -> Answer)
    requires reqs != [] && Responds(reqs[0])
    ensures Answers(ResponseTo(reqs[0], log, answer), reqs, 0, log, answer)
  {
    assert reqs[..0] == [] && log + [] == log;
  }

  /** One response per position, each the response to the request there. */
  ghost predicate AllAnswer(out: seq<Json>, at: seq<nat>, reqs: seq<Json>, log: seq<Call>, answer: seq<Call> -> Answer) {
    |out| == |at| && forall k :: 0 <= k < |out| ==> Answers(out[k], reqs, at[k], log, answer)
  }

  lemma AllAnswerLater(out: seq<Json>, at: seq<nat>, reqs: seq<Json>, log: seq<Call>, answer: seq<Call> -> Answer)
    requires reqs != [] && AllAnswer(out, at, reqs[1..], log + CallsOf(reqs[0]), answer)
    ensures AllAnswer(out, Shifted(at), reqs, log, answer)
  {
    forall k | 0 <= k < |out| ensures Answers(out[k], reqs, Shifted(at)[k], log, answer) {
      AnswersLater(out[k], reqs, at[k], log, answer);
    }
  }

  lemma AllAnswerFirst(first: Json, out: seq<Json>, at: seq<nat>, reqs: seq<Json>, log: seq<Call>, answer: seq<Call> -> Answer)
    requires Answers(first, reqs, 0, log, answer) && AllAnswer(out, at, reqs, log, answer)
    ensures AllAnswer([first] + out, [0] + at, reqs, log, answer)
  {
    var answers := (r: Json, i: nat) => Answers(r, reqs, i, log, answer);
    PairedFirst(answers, first, out, 0, at);
  }

  ghost predicate Paired<A, B>(rel: (A, B) -> bool, xs: seq<A>, ys: seq<B>) {
    |xs| == |ys| && forall k :: 0 <= k < |xs| ==> rel(xs[k], ys[k])
  }

  lemma PairedFirst<A, B>(rel: (A, B) -> bool, x: A, xs: seq<A>, y: B, ys: seq<B>)
    requires rel(x, y) && Paired(rel, xs, ys)
    ensures Paired(rel, [x] + xs, [y] + ys)
  {
  }

  /** The responses are exactly one per request that gets one, in the order of the requests, each the
      response to its request after the dispatches of all requests before it. */
  lemma {:induction false} OneResponseEachInOrder(reqs: seq<Json>, log: seq<Call>, answer: seq<Call> -> Answer)
    ensures AllAnswer(Responses(reqs, log, answer), Where(Asking(reqs)), reqs, log, answer)
  {
    if reqs != [] {
      var rest, log1 := reqs[1..], log + CallsOf(reqs[0]);
      var later, laterAt := Responses(rest, log1, answer), Shifted(Where(Asking(rest)));
      OneResponseEachInOrder(rest, log1, answer);
      AllAnswerLater(later, Where(Asking(rest)), reqs, log, answer);
      assert Asking(reqs)[1..] == Asking(rest);
      if Responds(reqs[0]) {
        AnswersFirst(reqs, log, answer);
        AllAnswerFirst(ResponseTo(reqs[0], log, answer), later, laterAt, reqs, log, answer);
      } else {
        assert Responses(reqs, log, answer) == later && Where(Asking(reqs)) == laterAt;
      }
    }
  }

  ghost predicate IsDispatchOf(call: Call, reqs: seq<Json>, i: nat) {
    i < |reqs| && CallsOf(reqs[i]) == [call]
  }

  /** The calls of the later requests, and where those requests stand. */
  ghost predicate Dispatched(calls: seq<Call>, at: seq<nat>, reqs: seq<Json>) {
    |calls| == |at| && forall k :: 0 <= k < |calls| ==> IsDispatchOf(calls[k], reqs, at[k])
  }

  lemma DispatchedGrow(calls: seq<Call>, at: seq<nat>, reqs: seq<Json>)
    requires reqs != [] && Dispatched(calls, at, reqs[1..])
    ensures Dispatched(CallsOf(reqs[0]) + calls, (if IsCall(reqs[0]) then [0] else []) + Shifted(at), reqs)
  {
    var calls', at' := CallsOf(reqs[0]) + calls, (if IsCall(reqs[0]) then [0] else []) + Shifted(at);
    var n := |CallsOf(reqs[0])|;
    forall k | 0 <= k < |calls'| ensures IsDispatchOf(calls'[k], reqs, at'[k]) {
      if k >= n {
        assert IsDispatchOf(calls[k - n], reqs[1..], at[k - n]);
        assert calls'[k] == calls[k - n] && at'[k] == at[k - n] + 1;
      }
    }
  }

  /** Exactly the requests with a method name and positional or no parameters are dispatched, in
      order, notifications included. */
  lemma {:induction false} DispatchedInOrder(reqs: seq<Json>)
    ensures Dispatched(Calls(reqs), Where(Calling(reqs)), reqs)
  {
    if reqs != [] {
      var rest := reqs[1..];
      DispatchedInOrder(rest);
      assert Calling(reqs)[1..] == Calling(rest);
      DispatchedGrow(Calls(rest), Where(Calling(rest)), reqs);
    }
  }

  /** The parameters go through as given, but for one false after exactly two of six methods. */
  lemma ParamsAreGivenOnes(req: Json)
    requires IsCall(req)
    ensures var call, given := CallsOf(req)[0], GivenParams(req);
            && call.name == req.fields[Method].s && given <= call.params
            && (|call.params| == |given| || call.params == given + [JBool(false)])
            && (|call.params| > |given| <==> call.name in TAKES_OPTIMISTIC_STATE_FETCH && |given| == 2)
  {
  }

  /** A response carries the version, the request's own id, and exactly one of a result and an error. */
  lemma ResponseIsWellFormed(req: Json, log: seq<Call>, answer: seq<Call> -> Answer)
    requires Responds(req)
    ensures var r := ResponseTo(req, log, answer);
            && r.JObject? && r.fields.Keys <= {JsonRpc, Id, ResultKey, ErrorKey}
            && JsonRpc in r.fields && r.fields[JsonRpc] == JString("2.0")
            && Id in r.fields && r.fields[Id] == req.fields[Id]
            && (ResultKey in r.fields <==> ErrorKey !in r.fields)
  {
    if IsCall(req) && answer(log + CallsOf(req)).Answered? {
      assert ResponseTo(req, log, answer) == ResponseEnvelope(req.fields[Id], answer(log + CallsOf(req)).value);
    } else {
      ErrorResponse(req, log, answer);
    }
  }

  lemma ErrorResponse(req: Json, log: seq<Call>, answer: seq<Call> -> Answer)
    requires Responds(req) && !(IsCall(req) && answer(log + CallsOf(req)).Answered?)
    ensures var r := ResponseTo(req, log, answer);
            && r.JObject? && r.fields.Keys == {JsonRpc, Id, ErrorKey}
            && r.fields[JsonRpc] == JString("2.0") && r.fields[Id] == req.fields[Id]
  {
  }

  /** It is a result exactly when the request was dispatched and answered, and then that answer;
      otherwise its error's code says which of the four ways it went wrong. */
  lemma ResponseSaysWhatHappened(req: Json, log: seq<Call>, answer: seq<Call> -> Answer)
    requires Responds(req)
    ensures var r, answered := ResponseTo(req, log, answer), answer(log + CallsOf(req));
            && r.JObject?
            && (ResultKey in r.fields <==> IsCall(req) && answered.Answered?)
            && (ResultKey in r.fields ==> r.fields[ResultKey] == answered.value)
            && (ErrorKey in r.fields ==> ErrorCode(r) == ExpectedCode(req, answered))
  {
  }

  function ExpectedCode(req: Json, answered: Answer): JsonInt {
    if IsCall(req) then
      if answered.Failed? && Mentions(answered.error, UNKNOWN_METHOD) then METHOD_NOT_FOUND else SERVER_ERROR
    else if req.JObject? && Method in req.fields && req.fields[Method].JString? then INVALID_PARAMS
    else INVALID_REQUEST
  }

  function ErrorCode(r: Json): int {
    if r.JObject? && ErrorKey in r.fields && r.fields[ErrorKey].JObject?
       && Code in r.fields[ErrorKey].fields && r.fields[ErrorKey].fields[Code].JInt?
    then r.fields[ErrorKey].fields[Code].i else 0
  }

  // ---------------------------------------------------------------------------
  // The handler
  // ---------------------------------------------------------------------------

  /** Whoever executes the calls: it sees them in order and may answer by all it has seen. */
  class Dispatcher {
    const answer: seq<Call> -> Answer
    var log: seq<Call>

    constructor (answer: seq<Call> -> Answer)
      ensures this.answer == answer && log == []
    {
      this.answer := answer;
      log := [];
    }

    method Dispatch(name: string, params: seq<Json>) returns (r: Answer)
      modifies this
      ensures log == old(log) + [Call(name, params)] && r == answer(log)
    {
      log := log + [Call(name, params)];
      r := answer(log);
    }
  }

  /** One request: whether it gets a response, and which. */
  method HandleOne(req: Json, dispatcher: Dispatcher) returns (responded: bool, out: Json)
    modifies dispatcher
    ensures dispatcher.log == old(dispatcher.log) + CallsOf(req)
    ensures responded == Responds(req)
    ensures responded ==> out == ResponseTo(req, old(dispatcher.log), dispatcher.answer)
  {
    var isNotification := !req.JObject? || Id !in req.fields || req.fields[Id].JNull?;
    var id := if req.JObject? && Id in req.fields then req.fields[Id] else JNull;
    out := JNull;
    if !req.JObject? {
      responded, out := Fail(isNotification, id, INVALID_REQUEST, "request must be a JSON object");
      return;
    }
    if Method !in req.fields || !req.fields[Method].JString? {
      responded, out := Fail(isNotification, id, INVALID_REQUEST, "'method' is required and must be a string");
      return;
    }
    var name := req.fields[Method].s;
    var params := [];
    if Params in req.fields && !req.fields[Params].JNull? {
      if !req.fields[Params].JArray? {
        responded, out := Fail(isNotification, id, INVALID_PARAMS, "'params' must be an array (named parameters are not supported)");
        return;
      }
      params := req.fields[Params].items;
    }
    if name in TAKES_OPTIMISTIC_STATE_FETCH && |params| == 2 {
      params := params + [JBool(false)];
    }
    var r := dispatcher.Dispatch(name, params);
    if isNotification {
      return false, JNull;
    }
    if r.Failed? {
      var unknown := Mentions(r.error, UNKNOWN_METHOD);
      return true, ErrorEnvelope(id, if unknown then METHOD_NOT_FOUND else SERVER_ERROR, r.error);
    }
    return true, ResponseEnvelope(id, r.value);
  }

  method Fail(isNotification: bool, id: Json, code: JsonInt, message: string) returns (responded: bool, out: Json)
    ensures responded == !isNotification && (responded ==> out == ErrorEnvelope(id, code, message))
  {
    out := ErrorEnvelope(id, code, message);
    responded := !isNotification;
  }

  /** What goes back: nothing at all, or one JSON value. */
  datatype Reply = NoBody | Body(json: Json)

  /** A body that may not have parsed, and what is said of it if not. */
  datatype Parsed = Bad(what: string) | Good(json: Json)

  function ReplyTo(body: Parsed, log: seq<Call>, answer: seq<Call> -> Answer): Reply {
    match body
    case Bad(what) => Body(ErrorEnvelope(JNull, PARSE_ERROR, "invalid JSON: " + what))
    case Good(JArray(reqs)) =>
      if reqs == [] then Body(ErrorEnvelope(JNull, INVALID_REQUEST, "empty batch"))
      else
        var out := Responses(reqs, log, answer);
        if out == [] then NoBody else Body(JArray(out))
    case Good(req) => if Responds(req) then Body(ResponseTo(req, log, answer)) else NoBody
  }

  /** What is dispatched for a whole body. */
  function CallsIn(body: Parsed): seq<Call> {
    match body
    case Bad(_) => []
    case Good(JArray(reqs)) => Calls(reqs)
    case Good(req) => CallsOf(req)
  }

  /** A batch is answered with an array of exactly its requests' responses, and with no body at all if
      and only if it is not empty and holds nothing but notifications. */
  lemma NoBodyIffNothingAsks(reqs: seq<Json>, log: seq<Call>, answer: seq<Call> -> Answer)
    ensures ReplyTo(Good(JArray(reqs)), log, answer) == NoBody
            <==> reqs != [] && forall i :: 0 <= i < |reqs| ==> !Responds(reqs[i])
  {
    OneResponseEachInOrder(reqs, log, answer);
    WhereIsExact(Asking(reqs));
    var at := Where(Asking(reqs));
    forall i | 0 <= i < |reqs| && Responds(reqs[i]) ensures at != [] {
      assert Asking(reqs)[i] && i in at;
    }
    if at != [] {
      assert at[0] in at && Asking(reqs)[at[0]];
    }
  }

  method HandleBody(body: Parsed, dispatcher: Dispatcher) returns (reply: Reply)
    modifies dispatcher
    ensures dispatcher.log == old(dispatcher.log) + CallsIn(body)
    ensures reply == ReplyTo(body, old(dispatcher.log), dispatcher.answer)
  {
    if body.Bad? {
      return Body(ErrorEnvelope(JNull, PARSE_ERROR, "invalid JSON: " + body.what));
    }
    var req := body.json;
    if req.JArray? {
      if req.items == [] {
        return Body(ErrorEnvelope(JNull, INVALID_REQUEST, "empty batch"));
      }
      var out := HandleBatch(req.items, dispatcher);
      return if out == [] then NoBody else Body(JArray(out));
    }
    var responded, resp := HandleOne(req, dispatcher);
    return if responded then Body(resp) else NoBody;
  }

  method HandleBatch(reqs: seq<Json>, dispatcher: Dispatcher) returns (out: seq<Json>)
    modifies dispatcher
    ensures dispatcher.log == old(dispatcher.log) + Calls(reqs)
    ensures out == Responses(reqs, old(dispatcher.log), dispatcher.answer)
  {
    out := [];
    ghost var log, answer := dispatcher.log, dispatcher.answer;
    for i := 0 to |reqs|
      invariant dispatcher.log + Calls(reqs[i..]) == log + Calls(reqs)
      invariant out + Responses(reqs[i..], dispatcher.log, answer) == Responses(reqs, log, answer)
    {
      BatchStep(reqs, i, dispatcher.log, out, answer);
      var responded, resp := HandleOne(reqs[i], dispatcher);
      if responded {
        out := out + [resp];
      }
    }
  }

  lemma BatchStep(reqs: seq<Json>, i: nat, log: seq<Call>, out: seq<Json>, answer: seq<Call> -> Answer)
    requires i < |reqs|
    ensures log + Calls(reqs[i..]) == (log + CallsOf(reqs[i])) + Calls(reqs[i + 1..])
    ensures out + Responses(reqs[i..], log, answer)
            == (if Responds(reqs[i]) then out + [ResponseTo(reqs[i], log, answer)] else out)
               + Responses(reqs[i + 1..], log + CallsOf(reqs[i]), answer)
  {
    assert reqs[i..][0] == reqs[i] && reqs[i..][1..] == reqs[i + 1..];
  }
}
