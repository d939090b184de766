/**
 * The Express relay (proxy-server/server.js): the `/api/proxy` route, which
 * forwards an envelope to the OpenAI API with the server's credentials, the
 * `/api/limits` route and the `/health` route. `req.body` is the value the
 * JSON body parser produced; `fetch` is a parameter.
 */
module ProxyServer {
  import opened Wrappers
  import opened Js
  import opened Http

  const OpenAIBase := "https://api.openai.com/v1"

  function ErrorBody(message: string): Json {
    JObj(map["error" := JStr(message)])
  }

  const ProxyFailed := JsonResponse(500, ErrorBody("Internal Server Error"))
  const LimitsFailed := JsonResponse(500, ErrorBody("Failed to fetch rate limits"))

  /** The headers of a forwarded call: JSON content, the bearer token and the organisation. */
  function ProxyHeaders(env: Env): seq<Header> {
    [ ("Content-Type", "application/json"),
      ("Authorization", "Bearer " + EnvText(env.apiKey)),
      ("OpenAI-Organization", EnvText(env.orgId)) ]
  }

  /** `body ? JSON.stringify(body) : undefined`: a falsy payload is not sent at all. */
  function ForwardedBody(payload: Val): (r: Val)
    ensures Truthy(payload) ==> r == payload
    ensures !Truthy(payload) ==> r == Undefined
  {
    if Truthy(payload) then payload else Undefined
  }

  /** `/api/proxy` up to the `fetch` call: destructure the envelope and build the upstream request. */
  function PlanProxy(reqBody: Val, env: Env): (p: RelayPlan)
    ensures p.Respond? <==> Nullish(reqBody)
    ensures p.Respond? ==> p.response == ProxyFailed
    ensures p.Forward? ==>
              && p.request.url == OpenAIBase + ToStr(Prop(reqBody, "endpoint").v)
              && p.request.verb == (if Truthy(Prop(reqBody, "method").v) then ToStr(Prop(reqBody, "method").v) else "POST")
              && p.request.headers == ProxyHeaders(env)
              && p.request.body == ForwardedBody(Prop(reqBody, "body").v)
  {
    if Nullish(reqBody) then Respond(ProxyFailed)  // destructuring undefined throws
    else
      var endpoint := Prop(reqBody, "endpoint").v;
      var verb := Prop(reqBody, "method").v;
      var payload := Prop(reqBody, "body").v;
      Forward(UpstreamRequest(OpenAIBase + ToStr(endpoint), if Truthy(verb) then ToStr(verb) else "POST",
                              ProxyHeaders(env), ForwardedBody(payload)))
  }

  /** `/api/proxy` from `fetch` on: non-ok mirrored, ok passed through with 200, failures 500. */
  function InterpretProxy(outcome: Outcome): (r: JsonResponse)
    ensures outcome.NetworkFailure? ==> r == ProxyFailed
    ensures outcome.Replied? && outcome.reply.body.Unparsable? ==> r == ProxyFailed
    ensures outcome.Replied? && outcome.reply.body.Parsed? ==>
              && r.body == outcome.reply.body.data
              && r.status == (if outcome.reply.Ok() then 200 else outcome.reply.status)
  {
    match outcome
    case NetworkFailure(_) => ProxyFailed
    case Replied(reply) =>
      match reply.body
      case Unparsable(_) => ProxyFailed
      case Parsed(data) => if reply.Ok() then JsonResponse(200, data) else JsonResponse(reply.status, data)
  }

  /** The `/api/proxy` handler. */
  function HandleProxy(reqBody: Val, env: Env, fetch: UpstreamRequest -> Outcome): (r: JsonResponse)
    ensures Nullish(reqBody) ==> r == ProxyFailed
    ensures PlanProxy(reqBody, env).Forward? ==> r == InterpretProxy(fetch(PlanProxy(reqBody, env).request))
  {
    match PlanProxy(reqBody, env)
    case Respond(response) => response
    case Forward(request) => InterpretProxy(fetch(request))
  }

  /** The `/api/limits` request: a GET of the usage endpoint carrying only the bearer token. */
  function LimitsRequest(env: Env): (q: UpstreamRequest)
    ensures q.url == OpenAIBase + "/usage" && q.verb == "GET" && q.body == Undefined
    ensures q.headers == [("Authorization", "Bearer " + EnvText(env.apiKey))]
  {
    UpstreamRequest(OpenAIBase + "/usage", "GET", [("Authorization", "Bearer " + EnvText(env.apiKey))], Undefined)
  }

  /** `/api/limits`: the upstream JSON with status 200 whatever the upstream status; failures 500. */
  function HandleLimits(env: Env, fetch: UpstreamRequest -> Outcome): (r: JsonResponse)
    ensures r.status == 200 || r == LimitsFailed
    ensures fetch(LimitsRequest(env)).Replied? && fetch(LimitsRequest(env)).reply.body.Parsed? ==>
              r == JsonResponse(200, fetch(LimitsRequest(env)).reply.body.data)
    ensures fetch(LimitsRequest(env)).NetworkFailure? ==> r == LimitsFailed
    ensures fetch(LimitsRequest(env)).Replied? && fetch(LimitsRequest(env)).reply.body.Unparsable? ==> r == LimitsFailed
  {
    match fetch(LimitsRequest(env))
    case NetworkFailure(_) => LimitsFailed
    case Replied(reply) =>
      match reply.body
      case Unparsable(_) => LimitsFailed
      case Parsed(data) => JsonResponse(200, data)
  }

  /**
   * `/api/limits` succeeds exactly when the upstream body parses, and the
   * upstream status plays no part in the answer.
   */
  lemma LimitsIgnoreUpstreamStatus(env: Env, fetch1: UpstreamRequest -> Outcome, fetch2: UpstreamRequest -> Outcome)
    ensures HandleLimits(env, fetch1).status == 200 <==>
              fetch1(LimitsRequest(env)).Replied? && fetch1(LimitsRequest(env)).reply.body.Parsed?
    ensures fetch1(LimitsRequest(env)).Replied? && fetch2(LimitsRequest(env)).Replied? &&
            fetch1(LimitsRequest(env)).reply.body == fetch2(LimitsRequest(env)).reply.body ==>
              HandleLimits(env, fetch1) == HandleLimits(env, fetch2)
  {
  }

  /** `/health`. */
  const HealthResponse := JsonResponse(200, JObj(map["status" := JStr("ok")]))

  /**
   * The status table of `/api/proxy`: 500 when the envelope or the call
   * fails, 200 for an ok upstream answer, otherwise the upstream's own status.
   */
  lemma ProxyStatuses(reqBody: Val, env: Env, fetch: UpstreamRequest -> Outcome)
    ensures var r := HandleProxy(reqBody, env, fetch);
            || r == ProxyFailed
            || (r.status == 200 && PlanProxy(reqBody, env).Forward?)
            || (PlanProxy(reqBody, env).Forward? && fetch(PlanProxy(reqBody, env).request).Replied?
                && !fetch(PlanProxy(reqBody, env).request).reply.Ok()
                && r.status == fetch(PlanProxy(reqBody, env).request).reply.status)
  {
  }

  /** The credentials sent upstream come from the server alone: the caller's envelope cannot change them. */
  lemma CredentialsFromServerOnly(body1: Val, body2: Val, env: Env)
    requires PlanProxy(body1, env).Forward? && PlanProxy(body2, env).Forward?
    ensures PlanProxy(body1, env).request.headers == PlanProxy(body2, env).request.headers
  {
  }

  /** Unlike the serverless relay, a `null` or empty-string payload is dropped rather than sent. */
  lemma FalsyPayloadDropped(endpoint: string, env: Env)
    ensures PlanProxy(Defined(JObj(map["endpoint" := JStr(endpoint), "body" := JNull])), env).request.body == Undefined
    ensures PlanProxy(Defined(JObj(map["endpoint" := JStr(endpoint), "body" := JStr("")])), env).request.body == Undefined
  {
  }
}
