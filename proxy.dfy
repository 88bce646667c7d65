/** The worker's `fetch` handler: answer preflight requests, refuse other
    methods, apply the rate limit, check the body, and relay a normalised
    request to the upstream messages API. */
module Proxy {
  import opened Js
  import opened Cors
  import opened RateLimit

  const ContentType := "Content-Type"
  const Json := "application/json"

  const DefaultModel := "claude-sonnet-4-20250514"
  const DefaultMaxTokens: int := 2048
  const MaxTokensCap: int := 4096

  /** The fields of a parsed body the worker reads. Strings and numbers may
      be missing; `messages` is present and an array. */
  datatype Fields = Fields(
    model: Option<string>,
    maxTokens: Option<int>,
    system: Option<string>,
    messages: seq<string>)

  /** What reading the body as JSON gives: it throws, it has no array
      `messages`, or it does. */
  datatype Body = Unparseable | NoMessages | Parsed(fields: Fields)

  /** The parts of an incoming request the handler looks at. */
  datatype Request = Request(
    verb: string,
    origin: Option<string>,
    connectingIp: Option<string>,
    body: Body)

  /** The JSON body sent upstream. */
  datatype UpstreamRequest = UpstreamRequest(
    model: string,
    maxTokens: int,
    system: string,
    messages: seq<string>)

  /** What the upstream call gives: a status and a body text, or an
      exception (network failure, unreadable body). */
  datatype UpstreamResult = Reply(status: int, text: string) | Threw

  /** The handler's decision before the upstream call. */
  datatype Outcome =
    | Preflight
    | MethodNotAllowed
    | TooManyRequests
    | BadRequest
    | InternalError
    | Forward(upstream: UpstreamRequest)

  /** A response body: none, a JSON `{error: message}`, or relayed text. */
  datatype Payload = NoBody | Error(message: string) | Relayed(text: string)

  datatype Response = Response(status: int, headers: Headers, payload: Payload)

  /** The rate-limit key: CF-Connecting-IP, or "unknown" when the header is
      missing or empty, so all such requests share one bucket. */
  function ClientIp(req: Request): (ip: string)
    ensures ip != ""
    ensures req.connectingIp.None? || req.connectingIp == Some("") ==> ip == "unknown"
    ensures req.connectingIp.Some? && req.connectingIp.value != "" ==> ip == req.connectingIp.value
  {
    OrElse(req.connectingIp, "unknown")
  }

  /** `Math.min(max_tokens || 2048, 4096)` for an integer or missing field. */
  function ClampMaxTokens(requested: Option<int>): (r: int)
    ensures r <= MaxTokensCap
    ensures requested.None? || requested == Some(0) ==> r == DefaultMaxTokens
    ensures requested.Some? && requested.value != 0 && requested.value <= MaxTokensCap
            ==> r == requested.value
    ensures requested.Some? && requested.value > MaxTokensCap ==> r == MaxTokensCap
  {
    var n := if requested.Some? && requested.value != 0 then requested.value else DefaultMaxTokens;
    if n < MaxTokensCap then n else MaxTokensCap
  }

  /** The body forwarded upstream: the messages unchanged, a default model
      and system prompt when those are missing or empty, and max_tokens
      defaulted and capped. */
  function Normalise(f: Fields): (u: UpstreamRequest)
    ensures u.messages == f.messages
    ensures u.maxTokens <= MaxTokensCap
    ensures u.maxTokens == ClampMaxTokens(f.maxTokens)
    ensures u.model != ""
    ensures f.model.Some? && f.model.value != "" ==> u.model == f.model.value
    ensures f.model.None? || f.model == Some("") ==> u.model == DefaultModel
    ensures f.system.Some? ==> u.system == f.system.value
    ensures f.system.None? ==> u.system == ""
  {
    UpstreamRequest(
      OrElse(f.model, DefaultModel),
      ClampMaxTokens(f.maxTokens),
      OrElse(f.system, ""),
      f.messages)
  }

  /** The decision sequence of `fetch`: OPTIONS first, then any method but
      POST, then the rate limit, then the body. `limited` is the rate
      limiter's answer, which only a POST asks for. */
  function Decide(verb: string, limited: bool, body: Body): (o: Outcome)
    ensures o == Preflight <==> verb == "OPTIONS"
    ensures o == MethodNotAllowed <==> verb != "OPTIONS" && verb != "POST"
    ensures o == TooManyRequests <==> verb == "POST" && limited
    ensures o == InternalError <==> verb == "POST" && !limited && body.Unparseable?
    ensures o == BadRequest <==> verb == "POST" && !limited && body.NoMessages?
    ensures o.Forward? <==> verb == "POST" && !limited && body.Parsed?
    ensures o.Forward? ==> body.Parsed? && o.upstream == Normalise(body.fields)
  {
    if verb == "OPTIONS" then Preflight
    else if verb != "POST" then MethodNotAllowed
    else if limited then TooManyRequests
    else match body
      case Unparseable => InternalError
      case NoMessages => BadRequest
      case Parsed(f) => Forward(Normalise(f))
  }

  /** Methods other than POST are answered without regard to the limiter. */
  lemma LimiterIrrelevantUnlessPost(verb: string, a: bool, b: bool, body: Body)
    requires verb != "POST"
    ensures Decide(verb, a, body) == Decide(verb, b, body)
  {
  }

  /** A limited POST is refused whatever its body holds. */
  lemma LimitedIgnoresBody(b1: Body, b2: Body)
    ensures Decide("POST", true, b1) == Decide("POST", true, b2) == TooManyRequests
  {
  }

  /** The response for an outcome: 204 with only the CORS headers for a
      preflight; every other response adds a JSON content type; errors carry
      the handler's messages; a forwarded request relays the upstream status
      and body unchanged, or gives 500 if the upstream call threw. */
  function Render(o: Outcome, cors: Headers, upstream: UpstreamRequest -> UpstreamResult): (r: Response)
    ensures o == Preflight ==> r == Response(204, cors, NoBody)
    ensures o != Preflight ==> r.headers == cors[ContentType := Json]
    ensures o == MethodNotAllowed ==> r.status == 405 && r.payload == Error("Method not allowed")
    ensures o == TooManyRequests ==>
              r.status == 429 && r.payload == Error("Too many requests. Please wait a moment.")
    ensures o == BadRequest ==>
              r.status == 400 && r.payload == Error("Invalid request: messages array required")
    ensures o == InternalError ==> r.status == 500 && r.payload == Error("Internal server error")
    ensures o.Forward? && upstream(o.upstream).Reply? ==>
              r.status == upstream(o.upstream).status && r.payload == Relayed(upstream(o.upstream).text)
    ensures o.Forward? && upstream(o.upstream).Threw? ==>
              r.status == 500 && r.payload == Error("Internal server error")
    ensures r.payload.Relayed? <==> o.Forward? && upstream(o.upstream).Reply?
  {
    var json := cors[ContentType := Json];
    match o
    case Preflight => Response(204, cors, NoBody)
    case MethodNotAllowed => Response(405, json, Error("Method not allowed"))
    case TooManyRequests => Response(429, json, Error("Too many requests. Please wait a moment."))
    case BadRequest => Response(400, json, Error("Invalid request: messages array required"))
    case InternalError => Response(500, json, Error("Internal server error"))
    case Forward(u) =>
      match upstream(u)
      case Reply(status, text) => Response(status, json, Relayed(text))
      case Threw => Response(500, json, Error("Internal server error"))
  }

  /** The `fetch` handler, with `limiter` the module-level rate-limit table,
      `now` the current time and `upstream` the call to the messages API.
      A POST records one call for its client IP; no other method touches
      the table. */
  method Fetch(limiter: RateLimiter, req: Request, allowedOrigin: string, now: int,
               upstream: UpstreamRequest -> UpstreamResult) returns (resp: Response)
    modifies limiter
    ensures req.verb != "POST" ==>
              limiter.table == old(limiter.table) &&
              resp == Render(Decide(req.verb, false, req.body), CorsHeaders(req.origin, allowedOrigin), upstream)
    ensures req.verb == "POST" ==>
              var v := Hit(Lookup(old(limiter.table), ClientIp(req)), now);
              limiter.table == old(limiter.table)[ClientIp(req) := v.entry] &&
              resp == Render(Decide(req.verb, v.limited, req.body), CorsHeaders(req.origin, allowedOrigin), upstream)
  {
    var cors := CorsHeaders(req.origin, allowedOrigin);
    if req.verb == "OPTIONS" {
      return Response(204, cors, NoBody);
    }
    if req.verb != "POST" {
      return Response(405, cors[ContentType := Json], Error("Method not allowed"));
    }
    var limited := limiter.IsRateLimited(ClientIp(req), now);
    if limited {
      return Response(429, cors[ContentType := Json], Error("Too many requests. Please wait a moment."));
    }
    match req.body {
      case Unparseable =>
        resp := Response(500, cors[ContentType := Json], Error("Internal server error"));
      case NoMessages =>
        resp := Response(400, cors[ContentType := Json], Error("Invalid request: messages array required"));
      case Parsed(f) =>
        var reply := upstream(Normalise(f));
        match reply {
          case Reply(status, text) =>
            resp := Response(status, cors[ContentType := Json], Relayed(text));
          case Threw =>
            resp := Response(500, cors[ContentType := Json], Error("Internal server error"));
        }
    }
  }
}
