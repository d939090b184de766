/**
 * The serverless relay (netlify/functions/openai-proxy.ts): a POST carrying
 * `{endpoint, method, body}` is forwarded to the OpenAI API with the server's
 * own key, and the upstream answer is mirrored back. The function splits into
 * a plan (answer at once, or the request to forward) and the interpretation
 * of the upstream outcome; `fetch` is a parameter.
 */
module NetlifyProxy {
  import opened Wrappers
  import opened Js
  import opened Http

  const OpenAIBase := "https://api.openai.com/v1"

  /** `event.body`: absent (null), the empty string, JSON text, or text `JSON.parse` rejects. */
  datatype EventBody = NoBody | EmptyBody | BodyJson(value: Json) | BodyMalformed

  const MethodNotAllowed := JsonResponse(405, JObj(map["error" := JStr("Method not allowed")]))
  const InternalError := JsonResponse(500, JObj(map["error" := JStr("Internal server error")]))

  /** `JSON.parse(event.body || '{}')`; `None` when the parse throws. */
  function ParsedEnvelope(body: EventBody): (r: Option<Json>)
    ensures body.NoBody? || body.EmptyBody? ==> r == Some(JObj(map[]))
    ensures r.None? <==> body.BodyMalformed?
  {
    match body
    case NoBody => Some(JObj(map[]))
    case EmptyBody => Some(JObj(map[]))
    case BodyJson(v) => Some(v)
    case BodyMalformed => None
  }

  /** The headers sent upstream: JSON content and the server's bearer token. */
  function RelayHeaders(env: Env): seq<Header> {
    [("Content-Type", "application/json"), ("Authorization", "Bearer " + EnvText(env.apiKey))]
  }

  /** `method || 'POST'`. */
  function MethodOr(verb: Val): (r: string)
    ensures !Truthy(verb) ==> r == "POST"
    ensures verb.Defined? && verb.json.JStr? && verb.json.s != "" ==> r == verb.json.s
  {
    if Truthy(verb) then ToStr(verb) else "POST"
  }

  /** Everything up to the `fetch` call: the 405 guard, the body parse and the destructuring. */
  function PlanRelay(httpMethod: string, body: EventBody, env: Env): (p: RelayPlan)
    ensures httpMethod != "POST" ==> p == Respond(MethodNotAllowed)
    ensures httpMethod == "POST" && p.Respond? ==> p.response == InternalError
    ensures p.Forward? <==>
              httpMethod == "POST" && ParsedEnvelope(body).Some? && ParsedEnvelope(body).value != JNull
    ensures p.Forward? ==>
              var envelope := Defined(ParsedEnvelope(body).value);
              && p.request.url == OpenAIBase + ToStr(Prop(envelope, "endpoint").v)
              && p.request.verb == MethodOr(Prop(envelope, "method").v)
              && p.request.headers == RelayHeaders(env)
              && p.request.body == Prop(envelope, "body").v
  {
    if httpMethod != "POST" then Respond(MethodNotAllowed)
    else match ParsedEnvelope(body)
      case None => Respond(InternalError)
      case Some(v) =>
        var envelope := Defined(v);
        if Nullish(envelope) then Respond(InternalError)  // destructuring null throws
        else
          var endpoint := Prop(envelope, "endpoint").v;
          var verb := Prop(envelope, "method").v;
          var payload := Prop(envelope, "body").v;
          Forward(UpstreamRequest(OpenAIBase + ToStr(endpoint), MethodOr(verb), RelayHeaders(env), payload))
  }

  /** From `fetch` on: a non-ok answer is mirrored, an ok one becomes 200, anything thrown becomes 500. */
  function InterpretRelay(outcome: Outcome): (r: JsonResponse)
    ensures outcome.NetworkFailure? ==> r == InternalError
    ensures outcome.Replied? && outcome.reply.body.Unparsable? ==> r == InternalError
    ensures outcome.Replied? && outcome.reply.body.Parsed? ==>
              && r.body == outcome.reply.body.data
              && r.status == (if outcome.reply.Ok() then 200 else outcome.reply.status)
  {
    match outcome
    case NetworkFailure(_) => InternalError
    case Replied(reply) =>
      match reply.body
      case Unparsable(_) => InternalError
      case Parsed(data) => if reply.Ok() then JsonResponse(200, data) else JsonResponse(reply.status, data)
  }

  /** `handler`. */
  function Handler(httpMethod: string, body: EventBody, env: Env, fetch: UpstreamRequest -> Outcome): (r: JsonResponse)
    ensures httpMethod != "POST" ==> r == MethodNotAllowed
    ensures PlanRelay(httpMethod, body, env).Forward? ==>
              r == InterpretRelay(fetch(PlanRelay(httpMethod, body, env).request))
  {
    match PlanRelay(httpMethod, body, env)
    case Respond(response) => response
    case Forward(request) => InterpretRelay(fetch(request))
  }

  /** Only a POST ever reaches upstream: any other method is answered the same whatever `fetch` would do. */
  lemma NonPostNeverForwards(httpMethod: string, body: EventBody, env: Env,
                             fetch1: UpstreamRequest -> Outcome, fetch2: UpstreamRequest -> Outcome)
    requires httpMethod != "POST"
    ensures Handler(httpMethod, body, env, fetch1) == Handler(httpMethod, body, env, fetch2)
  {
  }

  /** A missing or empty event body is handled as the empty envelope `{}`. */
  lemma MissingBodyIsEmptyEnvelope(env: Env, fetch: UpstreamRequest -> Outcome)
    ensures Handler("POST", NoBody, env, fetch) == Handler("POST", BodyJson(JObj(map[])), env, fetch)
    ensures Handler("POST", EmptyBody, env, fetch) == Handler("POST", BodyJson(JObj(map[])), env, fetch)
  {
  }

  /** The empty envelope is forwarded as a POST to ".../v1undefined" with no body. */
  lemma EmptyEnvelopeRequest(env: Env)
    ensures PlanRelay("POST", NoBody, env)
              == Forward(UpstreamRequest(OpenAIBase + "undefined", "POST", RelayHeaders(env), Undefined))
  {
  }

  /** The credentials sent upstream come from the server alone: the caller's envelope cannot change them. */
  lemma CredentialsFromServerOnly(body1: EventBody, body2: EventBody, env: Env)
    requires PlanRelay("POST", body1, env).Forward? && PlanRelay("POST", body2, env).Forward?
    ensures PlanRelay("POST", body1, env).request.headers == PlanRelay("POST", body2, env).request.headers
  {
  }

  /** A well-formed envelope reaches the endpoint it names, with the verb and payload it carries. */
  lemma EnvelopeForwarded(endpoint: string, verb: string, payload: Json, env: Env)
    requires verb != ""
    ensures var envelope := JObj(map["endpoint" := JStr(endpoint), "method" := JStr(verb), "body" := payload]);
            PlanRelay("POST", BodyJson(envelope), env)
              == Forward(UpstreamRequest(OpenAIBase + endpoint, verb, RelayHeaders(env), Defined(payload)))
  {
  }
}
