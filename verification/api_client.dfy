/**
 * The browser-side client of the relay (src/lib/api.ts): every call is a POST
 * of an `{endpoint, method, body}` envelope to the relay's `/api/proxy`
 * route, and a non-ok answer becomes an `ApiError`. The relay's base URL
 * (`config.proxyUrl`), `JSON.parse` of caller-supplied text and `fetch` are
 * parameters.
 */
module ApiClient {
  import opened Wrappers
  import opened Js
  import opened Http
  import ProxyServer

  /**
   * `options.body` as a string: the `JSON.stringify` of a value (never empty,
   * and read back by `JSON.parse` as that value), or text the caller supplied.
   */
  datatype BodyText = Serialized(value: Json) | Raw(text: string)

  /** The two fields of `RequestInit` that `fetchApi` reads. */
  datatype RequestOptions = RequestOptions(verb: Option<string>, body: Option<BodyText>)

  const NoRequestOptions := RequestOptions(None, None)

  /** The envelope the relay receives; `undefined` members are dropped by `JSON.stringify`. */
  datatype Envelope = Envelope(endpoint: string, verb: Option<string>, body: Val)

  /** The POST `fetchApi` sends to the relay. */
  datatype RelayCall = RelayCall(url: string, verb: string, headers: seq<Header>, envelope: Envelope)

  /** How a call settles: resolved with data, rejected with an `ApiError`, or rejected otherwise. */
  datatype ClientResult = Resolved(data: Json) | ApiErr(status: int, message: string) | Rejected(reason: string)

  const ProxyPath := "/api/proxy"
  const JsonHeaders: seq<Header> := [("Content-Type", "application/json")]
  const DefaultErrorMessage := "An error occurred"

  /** `options.body ? JSON.parse(options.body) : undefined`; `Err` when the parse throws. */
  function EnvelopeBody(body: Option<BodyText>, parse: string -> Result<Json, string>): (r: Result<Val, string>)
    ensures body.None? ==> r == Ok(Undefined)
    ensures body.Some? && body.value.Serialized? ==> r == Ok(Defined(body.value.value))
    ensures body == Some(Raw("")) ==> r == Ok(Undefined)
  {
    match body
    case None => Ok(Undefined)
    case Some(Serialized(v)) => Ok(Defined(v))
    case Some(Raw(text)) =>
      if text == "" then Ok(Undefined)
      else match parse(text)
        case Ok(v) => Ok(Defined(v))
        case Err(e) => Err(e)
  }

  /** `fetchApi` up to its `fetch`: the call to the relay, or the parse error that rejects first. */
  function PlanFetchApi(proxyUrl: string, endpoint: string, options: RequestOptions,
                        parse: string -> Result<Json, string>): (r: Result<RelayCall, string>)
    ensures r.Ok? <==> EnvelopeBody(options.body, parse).Ok?
    ensures r.Ok? ==>
              && r.value.url == proxyUrl + ProxyPath && r.value.verb == "POST"
              && r.value.headers == JsonHeaders
              && r.value.envelope == Envelope(endpoint, options.verb, EnvelopeBody(options.body, parse).value)
  {
    match EnvelopeBody(options.body, parse)
    case Err(e) => Err(e)
    case Ok(body) =>
      Ok(RelayCall(proxyUrl + ProxyPath, "POST", JsonHeaders, Envelope(endpoint, options.verb, body)))
  }

  /** `fetchApi` from `fetch` on: ok data resolves unchanged; a non-ok answer raises `ApiError`. */
  function InterpretFetchApi(outcome: Outcome): (r: ClientResult)
    ensures outcome.NetworkFailure? ==> r == Rejected(outcome.reason)
    ensures outcome.Replied? && outcome.reply.body.Unparsable? ==> r == Rejected(outcome.reply.body.reason)
    ensures outcome.Replied? && outcome.reply.body.Parsed? && outcome.reply.Ok() ==>
              r == Resolved(outcome.reply.body.data)
    ensures r.ApiErr? ==> outcome.Replied? && !outcome.reply.Ok() && r.status == outcome.reply.status
    ensures outcome.Replied? && outcome.reply.body.Parsed? && !outcome.reply.Ok() && outcome.reply.body.data != JNull ==>
              r.ApiErr? && r.status == outcome.reply.status
    ensures r.ApiErr? && r.message != DefaultErrorMessage ==>
              && outcome.Replied? && outcome.reply.body.Parsed? && outcome.reply.body.data.JObj?
              && "message" in outcome.reply.body.data.fields
              && Truthy(Defined(outcome.reply.body.data.fields["message"]))
              && r.message == ToStr(Defined(outcome.reply.body.data.fields["message"]))
  {
    match outcome
    case NetworkFailure(reason) => Rejected(reason)
    case Replied(reply) =>
      match reply.body
      case Unparsable(reason) => Rejected(reason)
      case Parsed(data) =>
        if reply.Ok() then Resolved(data)
        else match Prop(Defined(data), "message")
          case Threw(message) => Rejected(message)
          case Got(m) => ApiErr(reply.status, if Truthy(m) then ToStr(m) else DefaultErrorMessage)
  }

  /** `fetchApi`. */
  function FetchApi(proxyUrl: string, endpoint: string, options: RequestOptions,
                    parse: string -> Result<Json, string>, fetch: RelayCall -> Outcome): (r: ClientResult)
    ensures PlanFetchApi(proxyUrl, endpoint, options, parse).Err? ==>
              r == Rejected(PlanFetchApi(proxyUrl, endpoint, options, parse).error)
    ensures PlanFetchApi(proxyUrl, endpoint, options, parse).Ok? ==>
              r == InterpretFetchApi(fetch(PlanFetchApi(proxyUrl, endpoint, options, parse).value))
  {
    match PlanFetchApi(proxyUrl, endpoint, options, parse)
    case Err(e) => Rejected(e)
    case Ok(call) => InterpretFetchApi(fetch(call))
  }

  /** `JSON.stringify(body)` as `post` and `put` pass it on: `undefined` stays `undefined`. */
  function Stringify(body: Val): (r: Option<BodyText>)
    ensures r.None? <==> body.Undefined?
  {
    match body
    case Undefined => None
    case Defined(j) => Some(Serialized(j))
  }

  /** `api.get`: the relay is sent a GET envelope, whatever verb the options carry. */
  function Get(proxyUrl: string, endpoint: string, options: RequestOptions,
               parse: string -> Result<Json, string>, fetch: RelayCall -> Outcome): (r: ClientResult)
    ensures EnvelopeBody(options.body, parse).Ok? ==>
              r == InterpretFetchApi(fetch(RelayCall(proxyUrl + ProxyPath, "POST", JsonHeaders,
                                                     Envelope(endpoint, Some("GET"), EnvelopeBody(options.body, parse).value))))
    ensures EnvelopeBody(options.body, parse).Err? ==> r == Rejected(EnvelopeBody(options.body, parse).error)
  {
    FetchApi(proxyUrl, endpoint, options.(verb := Some("GET")), parse, fetch)
  }

  /** `api.post`: the relay is sent a POST envelope carrying the caller's value itself. */
  function Post(proxyUrl: string, endpoint: string, body: Val, options: RequestOptions,
                parse: string -> Result<Json, string>, fetch: RelayCall -> Outcome): (r: ClientResult)
    ensures r == InterpretFetchApi(fetch(RelayCall(proxyUrl + ProxyPath, "POST", JsonHeaders,
                                                   Envelope(endpoint, Some("POST"), body))))
  {
    FetchApi(proxyUrl, endpoint, options.(verb := Some("POST"), body := Stringify(body)), parse, fetch)
  }

  /** `api.put`: the relay is sent a PUT envelope carrying the caller's value itself. */
  function Put(proxyUrl: string, endpoint: string, body: Val, options: RequestOptions,
               parse: string -> Result<Json, string>, fetch: RelayCall -> Outcome): (r: ClientResult)
    ensures r == InterpretFetchApi(fetch(RelayCall(proxyUrl + ProxyPath, "POST", JsonHeaders,
                                                   Envelope(endpoint, Some("PUT"), body))))
  {
    FetchApi(proxyUrl, endpoint, options.(verb := Some("PUT"), body := Stringify(body)), parse, fetch)
  }

  /** `api.delete`: the relay is sent a DELETE envelope, whatever verb the options carry. */
  function Delete(proxyUrl: string, endpoint: string, options: RequestOptions,
                  parse: string -> Result<Json, string>, fetch: RelayCall -> Outcome): (r: ClientResult)
    ensures EnvelopeBody(options.body, parse).Ok? ==>
              r == InterpretFetchApi(fetch(RelayCall(proxyUrl + ProxyPath, "POST", JsonHeaders,
                                                     Envelope(endpoint, Some("DELETE"), EnvelopeBody(options.body, parse).value))))
    ensures EnvelopeBody(options.body, parse).Err? ==> r == Rejected(EnvelopeBody(options.body, parse).error)
  {
    FetchApi(proxyUrl, endpoint, options.(verb := Some("DELETE")), parse, fetch)
  }

  /** A non-ok answer raises `ApiError` with the body's `message`, or the generic text when that is missing. */
  lemma ErrorMessage(status: int, statusText: string, fields: map<string, Json>)
    requires !(200 <= status <= 299)
    ensures "message" !in fields ==>
              InterpretFetchApi(Replied(Reply(status, statusText, Parsed(JObj(fields))))) == ApiErr(status, DefaultErrorMessage)
    ensures "message" in fields && fields["message"].JStr? && fields["message"].s != "" ==>
              InterpretFetchApi(Replied(Reply(status, statusText, Parsed(JObj(fields))))) == ApiErr(status, fields["message"].s)
    ensures "message" in fields && Truthy(Defined(fields["message"])) ==>
              InterpretFetchApi(Replied(Reply(status, statusText, Parsed(JObj(fields)))))
                == ApiErr(status, ToStr(Defined(fields["message"])))
    ensures "message" in fields && !Truthy(Defined(fields["message"])) ==>
              InterpretFetchApi(Replied(Reply(status, statusText, Parsed(JObj(fields))))) == ApiErr(status, DefaultErrorMessage)
  {
  }

  /** A non-ok body that is a string, number, boolean or array has no `message`, so the generic text is used. */
  lemma NonObjectErrorBody(status: int, statusText: string, data: Json)
    requires !(200 <= status <= 299)
    requires data != JNull && !data.JObj?
    ensures InterpretFetchApi(Replied(Reply(status, statusText, Parsed(data)))) == ApiErr(status, DefaultErrorMessage)
  {
  }

  /** A `null` error body makes reading `message` throw, so the call rejects with that TypeError instead. */
  lemma NullErrorBodyRejects(status: int, statusText: string)
    requires !(200 <= status <= 299)
    ensures InterpretFetchApi(Replied(Reply(status, statusText, Parsed(JNull))))
              == Rejected("Cannot read properties of null (reading 'message')")
  {
    assert ReadError(Defined(JNull), "message") == "Cannot read properties of null (reading 'message')";
    assert Prop(Defined(JNull), "message") == Threw("Cannot read properties of null (reading 'message')");
  }

  // ------------------------------------------------------------ through the relay

  /** The envelope as the relay's JSON body parser sees it. */
  function EnvelopeJson(e: Envelope): (j: Json)
    ensures j.JObj? && "endpoint" in j.fields && j.fields["endpoint"] == JStr(e.endpoint)
    ensures ("method" in j.fields) <==> e.verb.Some?
    ensures e.verb.Some? ==> "method" in j.fields && j.fields["method"] == JStr(e.verb.value)
    ensures ("body" in j.fields) <==> e.body.Defined?
    ensures e.body.Defined? ==> "body" in j.fields && j.fields["body"] == e.body.json
  {
    var withEndpoint := map["endpoint" := JStr(e.endpoint)];
    var withVerb := if e.verb.Some? then withEndpoint["method" := JStr(e.verb.value)] else withEndpoint;
    JObj(if e.body.Defined? then withVerb["body" := e.body.json] else withVerb)
  }

  /**
   * End to end: what a `get`, `post`, `put` or `delete` puts in the envelope
   * is what the Express relay sends upstream. The verb and endpoint arrive as
   * given, and a truthy body arrives unchanged.
   */
  lemma EnvelopeReachesUpstream(endpoint: string, verb: string, body: Val, env: Env)
    requires verb in ["GET", "POST", "PUT", "DELETE"]
    ensures var relayed := ProxyServer.PlanProxy(Defined(EnvelopeJson(Envelope(endpoint, Some(verb), body))), env);
            && relayed.Forward?
            && relayed.request.url == ProxyServer.OpenAIBase + endpoint
            && relayed.request.verb == verb
            && relayed.request.body == ProxyServer.ForwardedBody(body)
  {
  }
}
