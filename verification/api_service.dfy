/**
 * Chat and text-to-speech dispatch (src/lib/api-service.ts). Each async
 * operation is split into a Plan step (configuration, messages and options
 * in; an early failure or the outgoing request out) and an Interpret step
 * (the upstream outcome in; an `ApiResponse` out). The network is the `fetch`
 * parameter of the composed operation, and the configuration is re-read from
 * the store on every call.
 */
module ApiService {
  import opened Wrappers
  import opened Js
  import opened Types
  import opened Storage
  import opened Http
  import opened ApiConfigStore

  /** `{success: true, data}` or `{success: false, error}`. */
  datatype ApiResponse<+T> = Success(data: T) | Failure(error: string)

  /** Either the operation ends before any request, or this request is sent. */
  datatype Plan<+R, +T> = Abort(response: ApiResponse<T>) | Dispatch(request: R)

  // ---------------------------------------------------------------- chat

  /** `{temperature?, max_tokens?}`. */
  datatype ChatOptions = ChatOptions(temperature: Option<real>, maxTokens: Option<int>)

  const NoOptions := ChatOptions(None, None)

  /** The JSON request body; `temperature` is absent for Anthropic. */
  datatype ChatBody = ChatBody(model: string, messages: seq<ChatMessage>, temperature: Option<real>, maxTokens: int)

  /** A POST to `url` with the given headers and the JSON-encoded body. */
  datatype ChatRequest = ChatRequest(url: string, headers: seq<Header>, body: ChatBody)

  /** `data` of a successful chat response. */
  datatype ChatData = ChatData(message: ChatMessage, rawResponse: Json)

  const ApiKeyMissing := "API key not configured. Please add your API key in Settings."
  const UnknownChatProvider := "Unknown AI provider. Please check your settings."
  const ChatServiceFailed := "Failed to get response from AI service."
  const NoContentFromService := "No content from AI service."
  const DefaultTemperature: real := 0.7
  const DefaultMaxTokens := 1000

  predicate KnownChatProvider(p: ChatProvider) {
    !p.OtherChatProvider?
  }

  function ChatUrl(p: ChatProvider): string
    requires KnownChatProvider(p)
  {
    match p
    case OpenAI => "https://api.openai.com/v1/chat/completions"
    case Anthropic => "https://api.anthropic.com/v1/messages"
    case Mistral => "https://api.mistral.ai/v1/chat/completions"
    case Perplexity => "https://api.perplexity.ai/chat/completions"
  }

  function BearerHeaders(apiKey: string): seq<Header> {
    [("Authorization", "Bearer " + apiKey), ("Content-Type", "application/json")]
  }

  /** `options.temperature || 0.7`: absent and zero both fall back. */
  function TemperatureOr(t: Option<real>): real {
    if t.Some? && t.value != 0.0 then t.value else DefaultTemperature
  }

  /** `options.max_tokens || 1000`: absent and zero both fall back. */
  function MaxTokensOr(m: Option<int>): int {
    if m.Some? && m.value != 0 then m.value else DefaultMaxTokens
  }

  /** Plan of `sendChatMessage`: the key guard, the provider switch and the body shape. */
  function PlanChat(config: ApiConfig, messages: seq<ChatMessage>, options: ChatOptions): (p: Plan<ChatRequest, ChatData>)
    ensures config.chatAI.apiKey == "" ==> p == Abort(Failure(ApiKeyMissing))
    ensures config.chatAI.apiKey != "" && !KnownChatProvider(config.chatAI.provider) ==>
              p == Abort(Failure(UnknownChatProvider))
    ensures p.Dispatch? <==> config.chatAI.apiKey != "" && KnownChatProvider(config.chatAI.provider)
    ensures p.Dispatch? ==>
              && p.request.headers == BearerHeaders(config.chatAI.apiKey)
              && p.request.body.model == config.chatAI.model
              && p.request.body.messages == messages
              && (p.request.body.temperature.None? <==> config.chatAI.provider == Anthropic)
              && (config.chatAI.provider == Anthropic <==> p.request.url == "https://api.anthropic.com/v1/messages")
              && (config.chatAI.provider == OpenAI ==> p.request.url == "https://api.openai.com/v1/chat/completions")
              && (config.chatAI.provider == Mistral ==> p.request.url == "https://api.mistral.ai/v1/chat/completions")
              && (config.chatAI.provider == Perplexity ==> p.request.url == "https://api.perplexity.ai/chat/completions")
    ensures p.Dispatch? && p.request.body.temperature.Some? ==>
              (if options.temperature.Some? && options.temperature.value != 0.0
               then p.request.body.temperature == options.temperature
               else p.request.body.temperature == Some(0.7))
    ensures p.Dispatch? ==>
              (if options.maxTokens.Some? && options.maxTokens.value != 0
               then p.request.body.maxTokens == options.maxTokens.value
               else p.request.body.maxTokens == 1000)
  {
    var chat := config.chatAI;
    if chat.apiKey == "" then Abort(Failure(ApiKeyMissing))
    else if !KnownChatProvider(chat.provider) then Abort(Failure(UnknownChatProvider))
    else
      var temperature := if chat.provider == Anthropic then None else Some(TemperatureOr(options.temperature));
      Dispatch(ChatRequest(ChatUrl(chat.provider), BearerHeaders(chat.apiKey),
                           ChatBody(chat.model, messages, temperature, MaxTokensOr(options.maxTokens))))
  }

  /**
   * The reply text of a 2xx body: `data.choices[0]?.message?.content`, or
   * `data.content[0]?.text` for Anthropic. Reading the list field of null,
   * or indexing a missing list, throws.
   */
  function ExtractContent(provider: ChatProvider, data: Json): Access
    requires KnownChatProvider(provider)
  {
    var listKey := if provider == Anthropic then "content" else "choices";
    match Prop(Defined(data), listKey)
    case Threw(m) => Threw(m)
    case Got(list) =>
      match Index0(list)
      case Threw(m) => Threw(m)
      case Got(first) =>
        if provider == Anthropic then OptProp(first, "text")
        else OptProp(OptProp(first, "message").v, "content")
  }

  /** Interpret step of `sendChatMessage`: every exception becomes a failure result. */
  function InterpretChat(provider: ChatProvider, outcome: Outcome): (r: ApiResponse<ChatData>)
    ensures outcome.NetworkFailure? ==> r == Failure(outcome.reason)
    ensures outcome.Replied? && outcome.reply.body.Unparsable? ==> r == Failure(outcome.reply.body.reason)
    ensures r.Success? ==>
              && outcome.Replied? && outcome.reply.Ok() && outcome.reply.body.Parsed?
              && r.data.rawResponse == outcome.reply.body.data
              && r.data.message.role == AssistantRole
    ensures outcome.Replied? && !outcome.reply.Ok() ==> r.Failure?
  {
    match outcome
    case NetworkFailure(m) => Failure(m)
    case Replied(reply) =>
      match reply.body
      case Unparsable(m) => Failure(m)
      case Parsed(data) =>
        if !reply.Ok() then
          match Prop(Defined(data), "error")
          case Threw(m) => Failure(m)
          case Got(err) =>
            var message := OptProp(err, "message").v;
            Failure(if Truthy(message) then ToStr(message) else ChatServiceFailed)
        else
          var content := if KnownChatProvider(provider) then ExtractContent(provider, data)
                         else Got(Defined(JStr(NoContentFromService)));
          match content
          case Threw(m) => Failure(m)
          case Got(c) => Success(ChatData(ChatMessage(AssistantRole, if Truthy(c) then ToStr(c) else ""), data))
  }

  /** `sendChatMessage`: load the configuration, plan, and interpret what `fetch` returns. */
  function SendChatMessage(store: LocalStore, messages: seq<ChatMessage>, options: ChatOptions,
                           fetch: ChatRequest -> Outcome): (r: ApiResponse<ChatData>)
    ensures LoadApiConfig(store).chatAI.apiKey == "" ==> r == Failure(ApiKeyMissing)
    ensures r.Success? ==> r.data.message.role == AssistantRole
  {
    var config := LoadApiConfig(store);
    match PlanChat(config, messages, options)
    case Abort(response) => response
    case Dispatch(request) => InterpretChat(config.chatAI.provider, fetch(request))
  }

  /** With no key or an unknown provider, the result does not depend on the network at all. */
  lemma ChatFailsBeforeRequest(store: LocalStore, messages: seq<ChatMessage>, options: ChatOptions,
                               fetch1: ChatRequest -> Outcome, fetch2: ChatRequest -> Outcome)
    requires LoadApiConfig(store).chatAI.apiKey == "" || !KnownChatProvider(LoadApiConfig(store).chatAI.provider)
    ensures SendChatMessage(store, messages, options, fetch1) == SendChatMessage(store, messages, options, fetch2)
    ensures SendChatMessage(store, messages, options, fetch1).Failure?
  {
  }

  /** `choices[0].message.content` of an OpenAI-shaped body is the extracted value. */
  lemma ExtractChoicesContent(provider: ChatProvider, data: Json, items: seq<Json>, content: Json)
    requires KnownChatProvider(provider) && provider != Anthropic
    requires Path(data, ["choices"]) == Some(JArr(items)) && |items| > 0
    requires Path(items[0], ["message", "content"]) == Some(content)
    ensures ExtractContent(provider, data) == Got(Defined(content))
  {
    assert data.JObj? && data.fields["choices"] == JArr(items);
    assert Prop(Defined(data), "choices") == Got(Defined(JArr(items)));
    var first := items[0];
    assert first.JObj? && "message" in first.fields;
    var message := first.fields["message"];
    assert OptProp(Defined(first), "message") == Got(Defined(message));
    assert Path(message, ["content"]) == Some(content) by {
      assert ["message", "content"][0] == "message";
      assert ["message", "content"][1..] == ["content"];
      assert Path(first, ["message", "content"]) == Path(message, ["content"]);
    }
    assert message.JObj? && "content" in message.fields && message.fields["content"] == content by {
      assert ["content"][0] == "content";
      assert ["content"][1..] == [];
      if message.JObj? && "content" in message.fields {
        assert Path(message, ["content"]) == Path(message.fields["content"], []);
      }
    }
    assert OptProp(Defined(message), "content") == Got(Defined(content));
  }

  /** `content[0].text` of an Anthropic-shaped body is the extracted value. */
  lemma ExtractAnthropicText(data: Json, items: seq<Json>, text: Json)
    requires Path(data, ["content"]) == Some(JArr(items)) && |items| > 0
    requires Path(items[0], ["text"]) == Some(text)
    ensures ExtractContent(Anthropic, data) == Got(Defined(text))
  {
    assert data.JObj? && data.fields["content"] == JArr(items);
    assert Prop(Defined(data), "content") == Got(Defined(JArr(items)));
    var first := items[0];
    assert first.JObj? && first.fields["text"] == text;
  }

  /**
   * A 2xx body following the provider's documented schema yields success with
   * exactly the embedded text (the empty string included) and the body as raw response.
   */
  lemma ChatReplyText(provider: ChatProvider, status: int, statusText: string, data: Json, items: seq<Json>, text: string)
    requires KnownChatProvider(provider) && 200 <= status <= 299
    requires Path(data, [if provider == Anthropic then "content" else "choices"]) == Some(JArr(items)) && |items| > 0
    requires Path(items[0], if provider == Anthropic then ["text"] else ["message", "content"]) == Some(JStr(text))
    ensures InterpretChat(provider, Replied(Reply(status, statusText, Parsed(data)))) ==
            Success(ChatData(ChatMessage(AssistantRole, text), data))
  {
    if provider == Anthropic {
      ExtractAnthropicText(data, items, JStr(text));
    } else {
      ExtractChoicesContent(provider, data, items, JStr(text));
    }
  }

  /** A non-2xx body's `error.message` becomes the failure text, e.g. "rate limited" on a 429. */
  lemma ChatUpstreamError(provider: ChatProvider, status: int, statusText: string, data: Json, message: string)
    requires !(200 <= status <= 299)
    requires Path(data, ["error", "message"]) == Some(JStr(message)) && message != ""
    ensures InterpretChat(provider, Replied(Reply(status, statusText, Parsed(data)))) == Failure(message)
  {
    assert data.JObj? && "error" in data.fields;
    var err := data.fields["error"];
    assert Path(err, ["message"]) == Some(JStr(message)) by {
      assert ["error", "message"][1..] == ["message"];
    }
    assert err.JObj? && err.fields["message"] == JStr(message);
  }

  /** A non-2xx body without an `error` whose `message` is truthy gets the generic failure text. */
  lemma ChatUpstreamErrorFallback(provider: ChatProvider, status: int, statusText: string, fields: map<string, Json>)
    requires !(200 <= status <= 299)
    requires "error" !in fields || Path(fields["error"], ["message"]).None?
             || !Truthy(Defined(Path(fields["error"], ["message"]).value))
    ensures InterpretChat(provider, Replied(Reply(status, statusText, Parsed(JObj(fields))))) == Failure(ChatServiceFailed)
  {
  }

  /**
   * A 2xx body whose list is empty, or whose first element carries no truthy
   * text, is still a success, with empty content.
   */
  lemma ChatMissingContentIsEmpty(provider: ChatProvider, status: int, statusText: string, data: Json, items: seq<Json>)
    requires KnownChatProvider(provider) && 200 <= status <= 299
    requires Path(data, [if provider == Anthropic then "content" else "choices"]) == Some(JArr(items))
    requires var textPath := if provider == Anthropic then ["text"] else ["message", "content"];
             |items| == 0 || Path(items[0], textPath).None? || !Truthy(Defined(Path(items[0], textPath).value))
    ensures InterpretChat(provider, Replied(Reply(status, statusText, Parsed(data)))) ==
            Success(ChatData(ChatMessage(AssistantRole, ""), data))
  {
    var listKey := if provider == Anthropic then "content" else "choices";
    assert data.JObj? && data.fields[listKey] == JArr(items);
    if |items| > 0 && provider != Anthropic {
      var first := items[0];
      if first.JObj? && "message" in first.fields {
        var message := first.fields["message"];
        assert Path(first, ["message", "content"]) == Path(message, ["content"]) by {
          assert ["message", "content"][1..] == ["content"];
        }
        assert OptProp(Defined(first), "message") == Got(Defined(message));
        if message.JObj? && "content" in message.fields {
          assert Path(message, ["content"]) == Some(message.fields["content"]);
        }
      }
    }
  }

  /** A 2xx body without the provider's list field is a failure, not a fault. */
  lemma ChatMissingListFails(provider: ChatProvider, status: int, statusText: string, data: Json)
    requires KnownChatProvider(provider) && 200 <= status <= 299
    requires Path(data, [if provider == Anthropic then "content" else "choices"]).None?
    ensures InterpretChat(provider, Replied(Reply(status, statusText, Parsed(data)))).Failure?
  {
    var listKey := if provider == Anthropic then "content" else "choices";
    assert !(data.JObj? && listKey in data.fields);
  }

  /** The 429 example: `{"error":{"message":"rate limited"}}` fails with "rate limited". */
  lemma RateLimitedMessage(provider: ChatProvider)
    ensures InterpretChat(provider, Replied(Reply(429, "Too Many Requests",
              Parsed(JObj(map["error" := JObj(map["message" := JStr("rate limited")])]))))) ==
            Failure("rate limited")
  {
    var data := JObj(map["error" := JObj(map["message" := JStr("rate limited")])]);
    assert Path(data, ["error", "message"]) == Some(JStr("rate limited")) by {
      assert ["error", "message"][1..] == ["message"];
      assert ["message"][1..] == [];
    }
    ChatUpstreamError(provider, 429, "Too Many Requests", data, "rate limited");
  }

  // ------------------------------------------------------- text to speech

  datatype VoiceBody =
    | ElevenLabsBody(text: string, modelId: string, stability: real, similarityBoost: real)
    | GoogleBody(inputText: string, languageCode: string, ssmlGender: string, audioEncoding: string)
    | SsmlBody(ssml: string)  // sent as the raw string, not JSON

  datatype VoiceRequest = VoiceRequest(url: string, headers: seq<Header>, body: VoiceBody)

  /** Where the audio comes from: the binary response itself, or bytes decoded from base64. */
  datatype AudioSource = ResponseBlob | DecodedAudio(bytes: seq<byte>)

  /** `data` of a successful speech response; the object URL wrapping the audio is not modelled. */
  datatype AudioData = AudioData(source: AudioSource, duration: int)

  const VoiceNotConfigured := "Voice API not configured. Please add your Voice API key in Settings."
  const UnknownVoiceProvider := "Unknown voice provider. Please check your settings."
  const NoAudioContent := "No audio content in response"
  const DefaultVoiceId := "EXAVITQu4vr4xnSDxMaL"
  const ElevenLabsUrl := "https://api.elevenlabs.io/v1/text-to-speech/"
  const SsmlPrefix := "<speak version='1.0' xml:lang='en-US'><voice xml:lang='en-US'><prosody rate='0'>"
  const SsmlSuffix := "</prosody></voice></speak>"

  predicate KnownVoiceProvider(p: VoiceProvider) {
    !p.OtherVoiceProvider?
  }

  /** `voiceId || 'EXAVITQu4vr4xnSDxMaL'`. */
  function VoiceIdOr(voiceId: Option<string>): string {
    if voiceId.Some? && voiceId.value != "" then voiceId.value else DefaultVoiceId
  }

  /** The request `textToSpeech` sends for a known voice provider. */
  function VoiceRequestFor(voice: VoiceAIConfig, text: string): (q: VoiceRequest)
    requires KnownVoiceProvider(voice.provider)
    ensures voice.provider == ElevenLabs ==>
              && q.url == ElevenLabsUrl + VoiceIdOr(voice.voiceId)
              && q.headers == BearerHeaders(voice.apiKey)
              && q.body.ElevenLabsBody? && q.body.text == text
    ensures voice.provider == Google ==>
              && q.url == "https://texttospeech.googleapis.com/v1/text:synthesize"
              && q.headers == BearerHeaders(voice.apiKey) && q.body.GoogleBody? && q.body.inputText == text
    ensures voice.provider == Azure ==>
              && q.url == "https://your-azure-region.tts.speech.microsoft.com/cognitiveservices/v1"
              && |q.headers| > 0 && q.headers[0] == ("Ocp-Apim-Subscription-Key", voice.apiKey)
              && (forall h :: h in q.headers ==> h.0 != "Authorization")
              && q.body.SsmlBody?
              && q.body.ssml == SsmlPrefix + text + SsmlSuffix
  {
    match voice.provider
    case ElevenLabs =>
      VoiceRequest(ElevenLabsUrl + VoiceIdOr(voice.voiceId), BearerHeaders(voice.apiKey),
                   ElevenLabsBody(text, "eleven_multilingual_v2", 0.5, 0.75))
    case Google =>
      VoiceRequest("https://texttospeech.googleapis.com/v1/text:synthesize", BearerHeaders(voice.apiKey),
                   GoogleBody(text, "en-US", "NEUTRAL", "MP3"))
    case Azure =>
      VoiceRequest("https://your-azure-region.tts.speech.microsoft.com/cognitiveservices/v1",
                   [("Ocp-Apim-Subscription-Key", voice.apiKey),
                    ("Content-Type", "application/ssml+xml"),
                    ("X-Microsoft-OutputFormat", "audio-16khz-128kbitrate-mono-mp3")],
                   SsmlBody(SsmlPrefix + text + SsmlSuffix))
  }

  /** The Azure SSML document carries the text verbatim (unescaped) inside its prosody element. */
  lemma SsmlEmbedsText(text: string)
    ensures (SsmlPrefix + text + SsmlSuffix)[|SsmlPrefix|..|SsmlPrefix| + |text|] == text
  {
  }

  /** Plan of `textToSpeech`: the configuration guard, then the per-provider request. */
  function PlanVoice(config: ApiConfig, text: string): (p: Plan<VoiceRequest, AudioData>)
    ensures config.voiceAI.None? || config.voiceAI.value.apiKey == "" ==> p == Abort(Failure(VoiceNotConfigured))
    ensures config.voiceAI.Some? && config.voiceAI.value.apiKey != "" && !KnownVoiceProvider(config.voiceAI.value.provider) ==>
              p == Abort(Failure(UnknownVoiceProvider))
    ensures p.Dispatch? <==>
              config.voiceAI.Some? && config.voiceAI.value.apiKey != "" && KnownVoiceProvider(config.voiceAI.value.provider)
    ensures p.Dispatch? ==> p.request == VoiceRequestFor(config.voiceAI.value, text)
  {
    if config.voiceAI.None? || config.voiceAI.value.apiKey == "" then Abort(Failure(VoiceNotConfigured))
    else if !KnownVoiceProvider(config.voiceAI.value.provider) then Abort(Failure(UnknownVoiceProvider))
    else Dispatch(VoiceRequestFor(config.voiceAI.value, text))
  }

  /** `new Uint8Array(codes)` of the character codes of `s`: each code taken modulo 256. */
  function ToBytes(s: string): (b: seq<byte>)
    ensures |b| == |s|
    ensures forall i :: 0 <= i < |s| ==> b[i] as int == (s[i] as int) % 256
  {
    if |s| == 0 then [] else [((s[0] as int) % 256) as byte] + ToBytes(s[1..])
  }

  /** The conversion loop over `byteCharacters`, producing the same bytes as `ToBytes`. */
  method ByteArray(chars: string) returns (bytes: seq<byte>)
    ensures |bytes| == |chars|
    ensures forall i :: 0 <= i < |chars| ==> bytes[i] as int == (chars[i] as int) % 256
    ensures bytes == ToBytes(chars)
  {
    bytes := [];
    var i := 0;
    while i < |chars|
      invariant 0 <= i <= |chars|
      invariant |bytes| == i
      invariant forall k :: 0 <= k < i ==> bytes[k] as int == (chars[k] as int) % 256
    {
      bytes := bytes + [((chars[i] as int) % 256) as byte];
      i := i + 1;
    }
  }

  /** `atob` yields one character per byte, so every byte is exactly its character's code. */
  lemma {:induction false} ToBytesOfBinaryString(s: string)
    requires forall i :: 0 <= i < |s| ==> s[i] as int < 256
    ensures forall i :: 0 <= i < |s| ==> ToBytes(s)[i] as int == s[i] as int
  {
    var b := ToBytes(s);
    forall i | 0 <= i < |s|
      ensures b[i] as int == s[i] as int
    {
      assert b[i] as int == (s[i] as int) % 256;
    }
  }

  /**
   * `data.audioContent || data.audio`: the first field when it is truthy,
   * otherwise the second (undefined when absent). Reading either of null throws.
   */
  function AudioField(data: Json): (a: Access)
    ensures a.Threw? <==> data == JNull
    ensures data.JObj? && "audioContent" in data.fields && Truthy(Defined(data.fields["audioContent"])) ==>
              a == Got(Defined(data.fields["audioContent"]))
    ensures data.JObj? && !("audioContent" in data.fields && Truthy(Defined(data.fields["audioContent"]))) ==>
              a == Got(if "audio" in data.fields then Defined(data.fields["audio"]) else Undefined)
  {
    match Prop(Defined(data), "audioContent")
    case Threw(m) => Threw(m)
    case Got(first) => if Truthy(first) then Got(first) else Prop(Defined(data), "audio")
  }

  /**
   * Interpret step of `textToSpeech`. `decode` is `atob` applied to the audio
   * field (with its string coercion): the binary string, or the message of the
   * exception it throws.
   */
  function InterpretVoice(provider: VoiceProvider, outcome: Outcome, decode: Json -> Result<string, string>): (r: ApiResponse<AudioData>)
    ensures outcome.NetworkFailure? ==> r == Failure(outcome.reason)
    ensures outcome.Replied? && !outcome.reply.Ok() ==>
              r == Failure("Voice API error: " + DecimalString(outcome.reply.status) + " " + outcome.reply.statusText)
    ensures outcome.Replied? && outcome.reply.Ok() && provider == ElevenLabs ==> r == Success(AudioData(ResponseBlob, 0))
    ensures r.Success? ==> r.data.duration == 0 && outcome.Replied? && outcome.reply.Ok()
    ensures outcome.Replied? && outcome.reply.Ok() && provider != ElevenLabs && outcome.reply.body.Parsed? ==>
              var audio := AudioField(outcome.reply.body.data);
              && (audio.Got? && !Truthy(audio.v) ==> r == Failure(NoAudioContent))
              && (audio.Got? && Truthy(audio.v) && decode(audio.v.json).Ok? ==>
                    r == Success(AudioData(DecodedAudio(ToBytes(decode(audio.v.json).value)), 0)))
              && (audio.Got? && Truthy(audio.v) && decode(audio.v.json).Err? ==> r == Failure(decode(audio.v.json).error))
              && (audio.Threw? ==> r == Failure(audio.message))
    ensures r.Success? && provider != ElevenLabs ==>
              && outcome.reply.body.Parsed?
              && var audio := AudioField(outcome.reply.body.data);
              && audio.Got? && Truthy(audio.v) && decode(audio.v.json).Ok?
              && r.data.source == DecodedAudio(ToBytes(decode(audio.v.json).value))
  {
    match outcome
    case NetworkFailure(m) => Failure(m)
    case Replied(reply) =>
      if !reply.Ok() then Failure("Voice API error: " + DecimalString(reply.status) + " " + reply.statusText)
      else if provider == ElevenLabs then Success(AudioData(ResponseBlob, 0))
      else
        match reply.body
        case Unparsable(m) => Failure(m)
        case Parsed(data) =>
          match AudioField(data)
          case Threw(m) => Failure(m)
          case Got(audio) =>
            if !Truthy(audio) then Failure(NoAudioContent)
            else
              match decode(audio.json)
              case Err(m) => Failure(m)
              case Ok(chars) => Success(AudioData(DecodedAudio(ToBytes(chars)), 0))
  }

  /** A 2xx Google or Azure body whose `audioContent` is a non-empty string plays that audio, decoded. */
  lemma VoiceAudioContent(provider: VoiceProvider, status: int, statusText: string, fields: map<string, Json>,
                          b: string, chars: string, decode: Json -> Result<string, string>)
    requires provider != ElevenLabs && 200 <= status <= 299
    requires "audioContent" in fields && fields["audioContent"] == JStr(b) && b != ""
    requires decode(JStr(b)) == Ok(chars)
    ensures InterpretVoice(provider, Replied(Reply(status, statusText, Parsed(JObj(fields)))), decode)
              == Success(AudioData(DecodedAudio(ToBytes(chars)), 0))
  {
  }

  /** When `audioContent` is absent or falsy, a non-empty string `audio` is played instead. */
  lemma VoiceAudioFallback(provider: VoiceProvider, status: int, statusText: string, fields: map<string, Json>,
                           b: string, chars: string, decode: Json -> Result<string, string>)
    requires provider != ElevenLabs && 200 <= status <= 299
    requires "audioContent" !in fields || !Truthy(Defined(fields["audioContent"]))
    requires "audio" in fields && fields["audio"] == JStr(b) && b != ""
    requires decode(JStr(b)) == Ok(chars)
    ensures InterpretVoice(provider, Replied(Reply(status, statusText, Parsed(JObj(fields)))), decode)
              == Success(AudioData(DecodedAudio(ToBytes(chars)), 0))
  {
  }

  /** A 2xx Google or Azure body with neither field truthy has no audio. */
  lemma VoiceNoAudio(provider: VoiceProvider, status: int, statusText: string, fields: map<string, Json>,
                     decode: Json -> Result<string, string>)
    requires provider != ElevenLabs && 200 <= status <= 299
    requires "audioContent" !in fields || !Truthy(Defined(fields["audioContent"]))
    requires "audio" !in fields || !Truthy(Defined(fields["audio"]))
    ensures InterpretVoice(provider, Replied(Reply(status, statusText, Parsed(JObj(fields)))), decode)
              == Failure(NoAudioContent)
  {
  }

  /** `textToSpeech`: load the configuration, plan, and interpret what `fetch` returns. */
  function TextToSpeech(store: LocalStore, text: string, fetch: VoiceRequest -> Outcome,
                        decode: Json -> Result<string, string>): (r: ApiResponse<AudioData>)
    ensures LoadApiConfig(store).voiceAI.None? ==> r == Failure(VoiceNotConfigured)
  {
    var config := LoadApiConfig(store);
    match PlanVoice(config, text)
    case Abort(response) => response
    case Dispatch(request) => InterpretVoice(config.voiceAI.value.provider, fetch(request), decode)
  }

  /** Without a usable voice configuration the result does not depend on the network. */
  lemma VoiceFailsBeforeRequest(store: LocalStore, text: string, fetch1: VoiceRequest -> Outcome,
                                fetch2: VoiceRequest -> Outcome, decode: Json -> Result<string, string>)
    requires var voice := LoadApiConfig(store).voiceAI;
             voice.None? || voice.value.apiKey == "" || !KnownVoiceProvider(voice.value.provider)
    ensures TextToSpeech(store, text, fetch1, decode) == TextToSpeech(store, text, fetch2, decode)
    ensures TextToSpeech(store, text, fetch1, decode).Failure?
  {
  }

  // ------------------------------------------------------------ settings

  /** `saveApiKey`: re-reads the configuration and stores it with the new key and provider. */
  function SaveApiKey(store: LocalStore, apiKey: string, provider: ChatProvider): (s: LocalStore)
    ensures LoadApiConfig(s).chatAI == ChatAIConfig(provider, apiKey, LoadApiConfig(store).chatAI.model)
    ensures LoadApiConfig(s).voiceAI == LoadApiConfig(store).voiceAI
    ensures s.userMemory == store.userMemory && s.conversations == store.conversations
  {
    var config := LoadApiConfig(store);
    SaveApiConfig(store, config.(chatAI := config.chatAI.(apiKey := apiKey, provider := provider)))
  }

  /** After `saveApiKey(k)` with a non-empty key and a known provider, a chat call reaches the network. */
  lemma SavedKeyEnablesChat(store: LocalStore, apiKey: string, provider: ChatProvider,
                            messages: seq<ChatMessage>, options: ChatOptions)
    requires apiKey != "" && KnownChatProvider(provider)
    ensures PlanChat(LoadApiConfig(SaveApiKey(store, apiKey, provider)), messages, options).Dispatch?
  {
  }
}
