/** The `POST /v1/chat/completions` handler: rewrite the body, call the upstream provider with it,
    and either stream the reply's chunks to the client or return its JSON body. */
module ChatProxy {
  import opened JsValues
  import opened RequestRewrite
  import opened StreamForwarding

  /** The error body sent when the upstream call fails. */
  const ProxyError: Json := JObj(map["error" := JStr("Proxy Error")])

  /** How the upstream stream finished: its `end` event or its `error` event. */
  datatype Terminal = StreamEnd | StreamError

  /** What the upstream call gives the handler. `Rejected` is a failed call (transport error,
      timeout, non-2xx status). A streamed reply carries its `data` chunks in arrival order, the
      event that closed it, and `beats`: how many heartbeat periods elapse before each chunk
      (`beats[i]` before chunk `i`) and, last, between the final chunk and the closing event. */
  datatype UpstreamReply =
    | Rejected
    | JsonReply(data: Json)
    | StreamReply(chunks: seq<Chunk>, beats: seq<nat>, terminal: Terminal)

  /** The handler's streaming test `nimRequest.stream`: it fails exactly when the field is
      absent or holds a falsy value. */
  predicate StreamMode(req: Request)
    ensures !StreamMode(req) <==>
      || "stream" !in req
      || req["stream"] == JNull || req["stream"] == JBool(false)
      || req["stream"] == JNum(0.0) || req["stream"] == JStr("")
  {
    Truthy(Get(req, "stream"))
  }

  /** The `responseType` the handler asks the upstream client for. */
  function ResponseType(req: Request): (t: string)
    ensures t == "stream" <==> StreamMode(req)
    ensures t == "json" <==> !StreamMode(req)
  {
    if Truthy(Get(req, "stream")) then "stream" else "json"
  }

  /** What the upstream client promises for the `responseType` it was asked for: a parsed body
      for `json`, a chunk stream for `stream`, or a failed call for either. */
  predicate Answers(responseType: string, reply: UpstreamReply) {
    match reply
    case Rejected => true
    case JsonReply(_) => responseType == "json"
    case StreamReply(chunks, beats, _) => responseType == "stream" && |beats| == |chunks| + 1
  }

  /** The response type requested upstream and the branch taken both follow the truthiness of
      the client's own `stream` field, which the rewrite never touches. */
  lemma StreamModeFollowsClient(body: Json)
    ensures RewriteRequest(body).Normal? ==>
      var r := RewriteRequest(body).value;
      && (StreamMode(r) <==> Truthy(Get(ShallowCopy(body), "stream")))
      && (ResponseType(r) == "stream" <==> StreamMode(r))
  {
    RewriteKeepsOtherFields(body);
  }

  /** The Express response object, as far as the handler uses it. */
  class Response {
    var status: nat
    var headers: map<string, string>
    /** The chunks passed to `write`, in order. */
    var written: seq<Chunk>
    /** The value passed to `json`, if any. */
    var jsonBody: Option<Json>
    var ended: bool

    /** True until anything has been sent. */
    predicate Pristine()
      reads this
    {
      written == [] && jsonBody == None && !ended
    }

    constructor ()
      ensures status == 200 && headers == map[] && Pristine()
    {
      status := 200;
      headers := map[];
      written := [];
      jsonBody := None;
      ended := false;
    }

    /** `res.setHeader(name, value)`; headers can only be set before anything is sent. */
    method SetHeader(name: string, value: string)
      requires Pristine()
      modifies this
      ensures headers == old(headers)[name := value]
      ensures status == old(status) && Pristine()
    {
      headers := headers[name := value];
    }

    /** `res.status(code)`. */
    method SetStatus(code: nat)
      requires Pristine()
      modifies this
      ensures status == code
      ensures headers == old(headers) && Pristine()
    {
      status := code;
    }

    /** `res.write(chunk)`: writing after `end` is an error, so it is ruled out. */
    method Write(chunk: Chunk)
      requires !ended
      modifies this
      ensures written == old(written) + [chunk]
      ensures status == old(status) && headers == old(headers) && jsonBody == old(jsonBody) && !ended
    {
      written := written + [chunk];
    }

    /** `res.end()`. */
    method End()
      modifies this
      ensures ended
      ensures status == old(status) && headers == old(headers) && written == old(written)
      ensures jsonBody == old(jsonBody)
    {
      ended := true;
    }

    /** `res.json(value)`: sends `value` as a JSON body and ends the response. The JSON content
        type is filled in because no `Content-Type` has been set yet. */
    method SendJson(value: Json)
      requires Pristine() && "Content-Type" !in headers
      modifies this
      ensures jsonBody == Some(value) && ended && written == []
      ensures headers == old(headers)["Content-Type" := "application/json; charset=utf-8"]
      ensures status == old(status)
    {
      headers := headers["Content-Type" := "application/json; charset=utf-8"];
      jsonBody := Some(value);
      ended := true;
    }
  }

  /** The `data` callback: write the chunk unless its text contains `[DONE]`. */
  method OnData(res: Response, chunk: Chunk)
    requires !res.ended
    modifies res
    ensures res.written == old(res.written) + Kept(chunk)
    ensures res.status == old(res.status) && res.headers == old(res.headers)
    ensures res.jsonBody == old(res.jsonBody) && !res.ended
  {
    if !HasDone(chunk) {
      res.Write(chunk);
    }
  }

  /** `n` firings of the heartbeat timer, each writing a keep-alive comment. */
  method Heartbeats(res: Response, n: nat)
    requires !res.ended
    modifies res
    ensures res.written == old(res.written) + Beats(n)
    ensures res.status == old(res.status) && res.headers == old(res.headers)
    ensures res.jsonBody == old(res.jsonBody) && !res.ended
  {
    var fired := 0;
    while fired < n
      invariant fired <= n
      invariant res.written == old(res.written) + Beats(fired)
      invariant res.status == old(res.status) && res.headers == old(res.headers)
      invariant res.jsonBody == old(res.jsonBody) && !res.ended
    {
      res.Write(KeepAliveFrame);
      assert Beats(fired + 1) == Beats(fired) + [KeepAliveFrame];
      fired := fired + 1;
    }
  }

  /** The streaming branch: set the event-stream header, start the heartbeat, forward the
      chunks as they arrive, and on either closing event stop the heartbeat and end the response.
      `heartbeatRunning` records whether `clearInterval` has been called; the timer itself is not
      modelled. `terminal` is not read, because `end` and `error` run the same callback. */
  method ForwardStream(res: Response, chunks: seq<Chunk>, beats: seq<nat>, terminal: Terminal)
    returns (heartbeatRunning: bool)
    requires |beats| == |chunks| + 1
    requires res.status == 200 && res.headers == map[] && res.Pristine()
    modifies res
    ensures res.ended && !heartbeatRunning
    ensures res.status == 200 && res.jsonBody == None
    ensures res.headers == map["Content-Type" := "text/event-stream"]
    ensures res.written == StreamBody(chunks, beats)
  {
    res.SetHeader("Content-Type", "text/event-stream");
    heartbeatRunning := true;
    var i := 0;
    while i < |chunks|
      invariant i <= |chunks|
      invariant res.written == Interleaved(chunks[..i], beats[..i])
      invariant res.status == 200 && res.headers == map["Content-Type" := "text/event-stream"]
      invariant res.jsonBody == None && !res.ended
    {
      Heartbeats(res, beats[i]);
      OnData(res, chunks[i]);
      InterleavedStep(chunks, beats, i);
      i := i + 1;
    }
    assert chunks[..i] == chunks;
    Heartbeats(res, beats[|chunks|]);
    // `end` and `error` run the same callback: stop the timer, end the response.
    heartbeatRunning := false;
    res.End();
  }

  /** The whole exchange for one request with body `body`. `upstream` is the provider: it
      receives the rewritten body and the response type. A `TypeError` while rewriting and a
      failed upstream call both land in the `catch`. `heartbeatRunning` records whether a
      heartbeat was started and not yet cleared with `clearInterval`; the timer itself is not
      modelled. */
  method HandleChatCompletions(res: Response, body: Json, upstream: (Request, string) -> UpstreamReply)
    returns (heartbeatRunning: bool)
    requires res.status == 200 && res.headers == map[] && res.Pristine()
    requires RewriteRequest(body).Normal? ==>
      var req := RewriteRequest(body).value;
      Answers(ResponseType(req), upstream(req, ResponseType(req)))
    modifies res
    ensures res.ended && !heartbeatRunning
    ensures RewriteRequest(body).Throws? ==>
      && res.status == 500 && res.jsonBody == Some(ProxyError) && res.written == []
      && res.headers == map["Content-Type" := "application/json; charset=utf-8"]
    ensures RewriteRequest(body).Normal? ==>
      var req := RewriteRequest(body).value;
      var reply := upstream(req, ResponseType(req));
      && (reply.Rejected? ==>
            && res.status == 500 && res.jsonBody == Some(ProxyError) && res.written == []
            && res.headers == map["Content-Type" := "application/json; charset=utf-8"])
      && (!reply.Rejected? ==>
            (res.headers == map["Content-Type" := "text/event-stream"] <==>
             Truthy(Get(ShallowCopy(body), "stream"))))
      && (!reply.Rejected? && !StreamMode(req) ==>
            && res.status == 200 && res.jsonBody == Some(reply.data) && res.written == []
            && res.headers == map["Content-Type" := "application/json; charset=utf-8"])
      && (!reply.Rejected? && StreamMode(req) ==>
            && res.status == 200 && res.jsonBody == None
            && res.headers == map["Content-Type" := "text/event-stream"]
            && res.written == StreamBody(reply.chunks, reply.beats))
  {
    heartbeatRunning := false;
    StreamModeFollowsClient(body);
    var rewritten := RewriteRequest(body);
    if rewritten.Throws? {
      res.SetStatus(500);
      res.SendJson(ProxyError);
    } else {
      var nimRequest := rewritten.value;
      var reply := upstream(nimRequest, ResponseType(nimRequest));
      if reply.Rejected? {
        res.SetStatus(500);
        res.SendJson(ProxyError);
      } else if StreamMode(nimRequest) {
        heartbeatRunning := ForwardStream(res, reply.chunks, reply.beats, reply.terminal);
      } else {
        res.SendJson(reply.data);
        assert res.headers["Content-Type"] != "text/event-stream";
      }
    }
  }
}
