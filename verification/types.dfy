/**
 * The application's records (src/lib/types.ts, src/types/openai.ts) and the
 * API configuration as src/lib/api-service.ts reads it: four chat providers
 * and an optional voice section, wider than the declared `ApiConfig` of
 * src/lib/api-config.ts, which admits only 'openai' and has no `voiceAI`.
 */
module Types {
  import opened Wrappers

  /** A `Date`, as milliseconds since the epoch. */
  type Timestamp = int

  datatype Sender = FromUser | FromEizi

  /** One bubble of the chat transcript. */
  datatype Message = Message(id: string, content: string, sender: Sender, timestamp: Timestamp)

  datatype Mood = Mood(id: string, emoji: string, labelText: string, color: string)  // `label` in the source; a Dafny keyword

  datatype MoodEntry = MoodEntry(id: string, mood: Mood, note: Option<string>, timestamp: Timestamp)

  datatype Reminder = Reminder(id: string, message: string, completed: bool, timestamp: Timestamp)

  datatype Language = English | Taglish

  datatype ImportantDate = ImportantDate(description: string, date: Timestamp)

  /** Everything the journal remembers about its user. */
  datatype UserMemory = UserMemory(
    name: Option<string>,
    preferredLanguage: Language,
    struggles: Option<seq<string>>,
    importantDates: Option<seq<ImportantDate>>,
    moodHistory: seq<MoodEntry>,
    lastInteraction: Option<Timestamp>,
    commonTopics: Option<seq<string>>,
    reminders: seq<Reminder>)

  /** The role of a message sent to a chat-completion provider. */
  datatype Role = SystemRole | UserRole | AssistantRole

  datatype ChatMessage = ChatMessage(role: Role, content: string)

  /** The chat providers the dispatch layer knows, plus whatever else a stored config names. */
  datatype ChatProvider = OpenAI | Anthropic | Mistral | Perplexity | OtherChatProvider(name: string)

  datatype VoiceProvider = ElevenLabs | Google | Azure | OtherVoiceProvider(name: string)

  datatype ChatAIConfig = ChatAIConfig(provider: ChatProvider, apiKey: string, model: string)

  datatype VoiceAIConfig = VoiceAIConfig(provider: VoiceProvider, apiKey: string, voiceId: Option<string>)

  datatype ApiConfig = ApiConfig(chatAI: ChatAIConfig, voiceAI: Option<VoiceAIConfig>)
}

/**
 * The browser's `localStorage`, restricted to the three keys the application
 * writes. Each key holds the JSON text of one typed value; since
 * `JSON.parse(JSON.stringify(v))` gives back `v` for these plain records, a
 * slot holds the value itself, and `None` means the key is absent.
 */
module Storage {
  import opened Wrappers
  import opened Types

  const ApiConfigKey := "api-config"
  const MemoryKey := "eizi-user-memory"
  const ConversationsKey := "eizi-conversations"

  datatype LocalStore = LocalStore(
    apiConfig: Option<ApiConfig>,          // under ApiConfigKey
    userMemory: Option<UserMemory>,        // under MemoryKey
    conversations: Option<seq<Message>>)   // under ConversationsKey
}

/** The result of a `fetch`: a rejection, or a response whose body is read as JSON. */
module Http {
  import opened Wrappers
  import opened Js

  type Header = (string, string)

  /** What `response.json()` yields: the parsed value, or a rejection with its message. */
  datatype Body = Parsed(data: Json) | Unparsable(reason: string)

  datatype Reply = Reply(status: int, statusText: string, body: Body) {
    /** `response.ok`: the status is in the 2xx range. */
    predicate Ok() {
      200 <= status <= 299
    }
  }

  /** A `fetch` either rejects (network failure) or resolves with a reply. */
  datatype Outcome = NetworkFailure(reason: string) | Replied(reply: Reply)

  /** A request a relay sends upstream; `body` is `undefined` when none is sent. */
  datatype UpstreamRequest = UpstreamRequest(url: string, verb: string, headers: seq<Header>, body: Val)

  /** A relay's answer: a status code and a JSON body. */
  datatype JsonResponse = JsonResponse(status: int, body: Json)

  /** A relay either answers at once or forwards this request upstream. */
  datatype RelayPlan = Respond(response: JsonResponse) | Forward(request: UpstreamRequest)

  /** The relay's environment variables `OPENAI_API_KEY` and `OPENAI_ORG_ID`. */
  datatype Env = Env(apiKey: Option<string>, orgId: Option<string>)

  /** A template literal's rendering of an environment variable: unset reads "undefined". */
  function EnvText(v: Option<string>): string {
    v.GetOr("undefined")
  }
}
