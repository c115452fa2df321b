/** The request handler of the chat function (the `serve` callback) reduced
    to its decisions: which response a request gets, and whether, and with
    which message list, the upstream chat-completion gateway is called. The
    environment, the network and the clock are inputs: whether the API key
    is configured, what the gateway replies, and the time of the call. */
module Handler {
  import opened Json
  import Cors
  import RateLimit
  import Validator

  const Preflight: string := "OPTIONS"
  const Anonymous: string := "anonymous"

  const RateLimited: string := "Too many requests. Please try again later."
  const UpstreamFailed: string := "Unable to process your request. Please try again."
  const InternalError: string := "Something went wrong. Please try again."

  const JsonContent: string := "application/json"
  const EventStreamContent: string := "text/event-stream"

  const GatewayModel: string := "google/gemini-2.5-flash"

  /** The portfolio knowledge base sent as the system prompt; its text plays
      no part in the handler's decisions. */
  const PortfolioContext: seq<CodeUnit>

  /** `{ role: "system", content: PORTFOLIO_CONTEXT }` */
  const SystemMessage: Value :=
    Obj(map["role" := Str(Ascii("system")), "content" := Str(PortfolioContext)])

  /** What `req.json()` makes of the request body. */
  datatype Body = Unparsable | Parsed(json: Value)

  /** The parts of an HTTP request the handler reads; `verb` is its method. */
  datatype Request = Request(
    verb: string,
    origin: Option<string>,
    forwardedFor: Option<string>,
    realIp: Option<string>,
    body: Body)

  /** What the gateway does with the call: the connection fails, or it
      answers with a status and a body. */
  datatype UpstreamReply = NetworkFailure | Reply(status: int, bytes: seq<bv8>)

  /** The body `{model, messages, stream}` of the call to the gateway. */
  datatype UpstreamRequest = UpstreamRequest(model: string, messages: seq<Value>, stream: bool)

  datatype ResponseBody = NoBody | JsonError(error: string) | EventStream(bytes: seq<bv8>)

  datatype Response = Response(
    status: int,
    cors: Cors.CorsHeaders,
    contentType: Option<string>,
    body: ResponseBody)

  /** One request's effect on the outside: the call to the gateway, if one
      is made, and the response. */
  datatype Exchange = Exchange(upstream: Option<UpstreamRequest>, response: Response)

  /** The rate-limiting key: `x-forwarded-for`, else `x-real-ip`, else a
      fixed placeholder. As with JavaScript's `||`, an empty header counts
      as missing. */
  function ClientId(req: Request): (id: string)
    ensures id != ""
    ensures id == Anonymous || Some(id) == req.forwardedFor || Some(id) == req.realIp
    ensures req.forwardedFor.Some? && req.forwardedFor.value != "" ==> id == req.forwardedFor.value
    ensures (req.forwardedFor.None? || req.forwardedFor.value == "") && req.realIp.Some? && req.realIp.value != "" ==>
              id == req.realIp.value
    ensures (req.forwardedFor.None? || req.forwardedFor.value == "") && (req.realIp.None? || req.realIp.value == "") ==>
              id == Anonymous
  {
    if req.forwardedFor.Some? && req.forwardedFor.value != "" then req.forwardedFor.value
    else if req.realIp.Some? && req.realIp.value != "" then req.realIp.value
    else Anonymous
  }

  /** `const { messages } = await req.json()`: `None` when this throws,
      because the body is not JSON or is `null`; otherwise the `messages`
      property, `undefined` when there is none. */
  function MessagesOf(body: Body): (m: Option<Value>)
    ensures m.None? <==> body.Unparsable? || body.json.Null? || body.json.Undefined?
    ensures m.Some? && m.value != Undefined ==>
              body.json.Obj? && "messages" in body.json.fields && m.value == body.json.fields["messages"]
    ensures body.Parsed? && body.json.Obj? && "messages" in body.json.fields ==>
              m == Some(body.json.fields["messages"])
    ensures body.Parsed? && !body.json.Null? && !body.json.Undefined?
              && !(body.json.Obj? && "messages" in body.json.fields) ==>
              m == Some(Undefined)
  {
    if body.Unparsable? || body.json.Null? || body.json.Undefined? then None
    else Some(Property(body.json, "messages"))
  }

  /** `response.ok` */
  predicate IsOk(status: int) {
    200 <= status <= 299
  }

  /** The status passed on for a gateway failure: the gateway's own rate-limit
      and payment statuses go through, every other failure becomes 500. */
  function UpstreamFailureStatus(status: int): (s: int)
    ensures s in {429, 402, 500}
    ensures s != 500 <==> status in {429, 402}
    ensures s != 500 ==> s == status
  {
    if status == 429 || status == 402 then status else 500
  }

  function ErrorResponse(status: int, cors: Cors.CorsHeaders, error: string): Response {
    Response(status, cors, Some(JsonContent), JsonError(error))
  }

  /** Whether the handler gets as far as calling the gateway. */
  predicate Forwards(req: Request, allowed: bool, keyPresent: bool) {
    && req.verb != Preflight
    && allowed
    && MessagesOf(req.body).Some?
    && Validator.IsConversation(MessagesOf(req.body).value)
    && keyPresent
  }

  /** The handler, given the rate limiter's verdict for `ClientId(req)`.
      Every response carries the CORS headers. The gateway is called exactly
      when the request passed every local check, with the system prompt
      ahead of the client's messages as they came. Error bodies are fixed
      strings or the validator's message; only a successful reply's bytes
      reach the client, unchanged. */
  function Decide(req: Request, allowed: bool, keyPresent: bool, upstream: UpstreamReply): (x: Exchange)
    ensures x.response.cors == Cors.GetCorsHeaders(Cors.OriginOf(req.origin))
    ensures x.response.status in {200, 400, 402, 429, 500}
    ensures x.upstream.Some? <==> Forwards(req, allowed, keyPresent)
    ensures x.upstream.Some? ==>
              && x.upstream.value.stream
              && x.upstream.value.messages == [SystemMessage] + MessagesOf(req.body).value.items
    ensures x.response.body.EventStream? <==> x.upstream.Some? && upstream.Reply? && IsOk(upstream.status)
    ensures x.response.body.EventStream? ==>
              && x.response.status == 200
              && x.response.body.bytes == upstream.bytes
              && x.response.contentType == Some(EventStreamContent)
    ensures x.response.body.JsonError? ==>
              && x.response.contentType == Some(JsonContent)
              && (|| x.response.body.error in {RateLimited, UpstreamFailed, InternalError}
                  || (&& x.response.status == 400
                      && MessagesOf(req.body).Some?
                      && Some(x.response.body.error) == Validator.Validate(MessagesOf(req.body).value).error))
    ensures x.response.body.NoBody? <==> req.verb == Preflight
    ensures req.verb == Preflight ==> x == Exchange(None, Response(200, x.response.cors, None, NoBody))
    ensures x.upstream.Some? ==> x.upstream.value.model == GatewayModel
    // The status and message of every error outcome, in the order the
    // handler meets them.
    ensures req.verb != Preflight && !allowed ==>
              x.response == ErrorResponse(429, x.response.cors, RateLimited)
    ensures req.verb != Preflight && allowed && MessagesOf(req.body).None? ==>
              x.response == ErrorResponse(500, x.response.cors, InternalError)
    ensures && req.verb != Preflight && allowed && MessagesOf(req.body).Some?
            && !Validator.IsConversation(MessagesOf(req.body).value) ==>
              && Validator.Validate(MessagesOf(req.body).value).error.Some?
              && x.response == ErrorResponse(400, x.response.cors,
                                             Validator.Validate(MessagesOf(req.body).value).error.value)
    ensures && req.verb != Preflight && allowed && MessagesOf(req.body).Some?
            && Validator.IsConversation(MessagesOf(req.body).value) && !keyPresent ==>
              x.response == ErrorResponse(500, x.response.cors, InternalError)
    ensures Forwards(req, allowed, keyPresent) && upstream.NetworkFailure? ==>
              x.response == ErrorResponse(500, x.response.cors, InternalError)
    ensures Forwards(req, allowed, keyPresent) && upstream.Reply? && !IsOk(upstream.status) ==>
              x.response == ErrorResponse(UpstreamFailureStatus(upstream.status), x.response.cors, UpstreamFailed)
  {
    var cors := Cors.GetCorsHeaders(Cors.OriginOf(req.origin));
    if req.verb == Preflight then
      Exchange(None, Response(200, cors, None, NoBody))
    else if !allowed then
      Exchange(None, ErrorResponse(429, cors, RateLimited))
    else
      match MessagesOf(req.body)
      case None => Exchange(None, ErrorResponse(500, cors, InternalError))
      case Some(messages) =>
        var validation := Validator.Validate(messages);
        if !validation.valid then
          Exchange(None, ErrorResponse(400, cors, validation.error.value))
        else if !keyPresent then
          Exchange(None, ErrorResponse(500, cors, InternalError))
        else
          var call := UpstreamRequest(GatewayModel, [SystemMessage] + messages.items, true);
          match upstream
          case NetworkFailure => Exchange(Some(call), ErrorResponse(500, cors, InternalError))
          case Reply(status, bytes) =>
            if !IsOk(status) then
              Exchange(Some(call), ErrorResponse(UpstreamFailureStatus(status), cors, UpstreamFailed))
            else
              Exchange(Some(call), Response(200, cors, Some(EventStreamContent), EventStream(bytes)))
  }

  /** A preflight request gets the same bare response whatever the limiter,
      the environment and the gateway would say. */
  lemma PreflightIgnoresEverythingElse(req: Request, a1: bool, k1: bool, u1: UpstreamReply,
                                       a2: bool, k2: bool, u2: UpstreamReply)
    requires req.verb == Preflight
    ensures Decide(req, a1, k1, u1) == Decide(req, a2, k2, u2)
    ensures Decide(req, a1, k1, u1).response.status == 200
    ensures Decide(req, a1, k1, u1).upstream.None?
  {
  }

  /** A request the limiter denies gets 429 and goes no further, whatever its
      body. */
  lemma DeniedRequestGets429(req: Request, keyPresent: bool, upstream: UpstreamReply)
    requires req.verb != Preflight
    ensures Decide(req, false, keyPresent, upstream).response == ErrorResponse(429, Cors.GetCorsHeaders(Cors.OriginOf(req.origin)), RateLimited)
    ensures Decide(req, false, keyPresent, upstream).upstream.None?
  {
  }

  /** The body of a failed gateway reply never reaches the client: two
      replies with the same failing status give the same exchange. */
  lemma UpstreamErrorBodyNotReflected(req: Request, allowed: bool, keyPresent: bool,
                                      status: int, b1: seq<bv8>, b2: seq<bv8>)
    requires !IsOk(status)
    ensures Decide(req, allowed, keyPresent, Reply(status, b1)) == Decide(req, allowed, keyPresent, Reply(status, b2))
  {
  }

  /** A body without `messages` is rejected by the validator with 400. */
  lemma MissingMessagesGets400(req: Request, keyPresent: bool, upstream: UpstreamReply)
    requires req.verb != Preflight
    requires req.body.Parsed? && req.body.json.Obj? && "messages" !in req.body.json.fields
    ensures Decide(req, true, keyPresent, upstream).response.status == 400
    ensures Decide(req, true, keyPresent, upstream).response.body == JsonError(Validator.NotAnArray)
  {
  }

  /** The twenty-first request of a client inside one window gets 429, even
      when its messages are valid, the key is present and the gateway would
      answer. */
  lemma TwentyFirstRequestInWindowGets429(records: RateLimit.Records, req: Request, t0: int, later: seq<int>,
                                          keyPresent: bool, upstream: UpstreamReply)
    requires req.verb != Preflight
    requires RateLimit.OpensWindow(records, ClientId(req), t0)
    requires |later| >= RateLimit.MaxRequests
    requires forall i :: 0 <= i < |later| ==> t0 <= later[i] <= t0 + RateLimit.WindowMs
    ensures var verdicts := RateLimit.Run(records, ClientId(req), [t0] + later).verdicts;
            Decide(req, verdicts[RateLimit.MaxRequests], keyPresent, upstream).response.status == 429
  {
    RateLimit.WindowAdmitsExactlyMax(records, ClientId(req), t0, later);
  }

  /** One request against the process's rate limiter, as one atomic step:
      a preflight leaves the limiter alone; every other request takes one
      step of the limiter for its client id, whatever later becomes of it. */
  method Serve(limiter: RateLimit.RateLimiter, req: Request, now: int, keyPresent: bool, upstream: UpstreamReply)
    returns (x: Exchange)
    requires limiter.Valid()
    modifies limiter
    ensures limiter.Valid()
    ensures req.verb == Preflight ==>
              limiter.records == old(limiter.records) && x == Decide(req, true, keyPresent, upstream)
    ensures req.verb != Preflight ==>
              var v := RateLimit.Step(old(limiter.records), ClientId(req), now);
              limiter.records == v.records && x == Decide(req, v.allowed, keyPresent, upstream)
  {
    if req.verb == Preflight {
      x := Decide(req, true, keyPresent, upstream);
      return;
    }
    var clientId := ClientId(req);
    var allowed := limiter.Check(clientId, now);
    x := Decide(req, allowed, keyPresent, upstream);
  }
}
