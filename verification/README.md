# Eizi MVP — a Dafny model of the journal, chat dispatch and credential relay

Eizi is a browser journaling companion. Its core is three groups of logic:

- **Chat and text-to-speech dispatch.** `sendChatMessage`, `textToSpeech` and `saveApiKey` read the
  stored API configuration and call one of four chat providers or three voice providers.
- **The credential relay.** A serverless function and an Express server forward an
  `{endpoint, method, body}` envelope to the OpenAI API with the server's own key. The browser-side
  client builds that envelope and turns a non-ok answer into an `ApiError`.
- **The local journal.** Mood entries, reminders and the chat transcript live in `localStorage`.
  The chat hook, the reminders card, the mood-history card and the mood tracker derive their views
  and updates from them.

Every asynchronous operation is split into two pure functions:

- a **plan**, which ends early with a failure or yields the outgoing request;
- an **interpretation**, which maps the upstream outcome to the result.

The upstream outcome is a network failure, or a reply with status, status text and a parsed or
unparsable JSON body. `fetch` is a function parameter of the composed operation. `localStorage` is
the record `Storage.LocalStore`, with one optional slot per key the application uses:
`api-config`, `eizi-user-memory` and `eizi-conversations`.

The JavaScript semantics the code relies on are written out in `js.dfy`:

- truthiness, and `String(v)`;
- property reads that throw V8's `TypeError` on `null`/`undefined`, and optional chaining;
- `trim` over the full JavaScript whitespace set;
- `parseInt`, `Number.prototype.toString`, `slice` and `String.prototype.replace` with a string
  pattern.

`Array.prototype.sort` is a stable insertion sort (`stable_sort.dfy`).

Files:

| file | models |
|---|---|
| `wrappers.dfy`, `js.dfy`, `types.dfy` | `Option`/`Result`, JSON values and JS built-ins, the records of `src/lib/types.ts`, the store and the HTTP outcome |
| `api_config.dfy` | `src/lib/api-config.ts` |
| `api_service.dfy` | `src/lib/api-service.ts` |
| `memory.dfy` | `src/lib/memory.ts` |
| `use_chat.dfy` | `src/hooks/use-chat.ts` (with `welcomeMessages`) |
| `reminders.dfy` | `src/components/RemindersSection.tsx` (with `reminderSuggestions`) |
| `mood_history.dfy`, `stable_sort.dfy` | `src/components/MoodHistory.tsx` |
| `mood_tracker.dfy` | `src/components/MoodTracker.tsx` |
| `netlify_proxy.dfy` | `netlify/functions/openai-proxy.ts` |
| `proxy_server.dfy` | `proxy-server/server.js` |
| `api_client.dfy` | `src/lib/api.ts` |

### Where the code and its description differ (the model follows the code)

- **Missing reply text.** A 2xx chat reply whose first choice has no `message.content` (or whose
  first Anthropic block has no `text`) is a *success* with empty content. It is not a failure.
- **Anthropic URL.** The Anthropic request goes to the full `https://api.anthropic.com/v1/messages`.
- **No relay in the service.** `api-service.ts` calls the providers directly, with the user's key.
  The relay is used only by `src/lib/api.ts`.
- **Empty error message.** A non-ok relay answer whose `message` is a truthy non-string is
  rendered with `String(v)`. An empty array therefore gives an `ApiError` with an empty message.
- **Missing fields.** The stored configuration type admits only OpenAI and has no `voiceAI`, but
  the service switches on four chat providers and reads `voiceAI`. The model's `ApiConfig` is the
  wider record, with `voiceAI` optional.

## Model

| member | source | states |
|---|---|---|
| ApiConfigStore.LoadApiConfig | src/lib/api-config.ts:10-24 | nothing stored gives OpenAI, empty key, gpt-3.5-turbo, no voice; a stored configuration comes back exactly |
| ApiConfigStore.SaveApiConfig | src/lib/api-config.ts:26-28 | the next load returns the saved configuration; memory and transcript untouched |
| ApiService.PlanChat | src/lib/api-service.ts:43-96 | empty key fails with the settings message; unknown provider fails; a request is built iff key set and provider known; each provider's own endpoint URL (OpenAI, Anthropic, Mistral, Perplexity); Bearer headers, model and messages unchanged; temperature absent exactly for Anthropic; falsy temperature becomes 0.7 and falsy max_tokens 1000 |
| ApiService.InterpretChat | src/lib/api-service.ts:109-152 | network and parse errors become failures carrying their message; success only for a parsed 2xx body, with role assistant and the raw body untouched; any non-2xx is a failure |
| ApiService.SendChatMessage | src/lib/api-service.ts:33-153 | no key stored gives the settings failure; a success always carries an assistant message |
| ApiService.ChatFailsBeforeRequest | src/lib/api-service.ts:42-96 | with no key or an unknown provider the result is a failure that no network behaviour can change |
| ApiService.ExtractChoicesContent | src/lib/api-service.ts:121-124 | for OpenAI, Mistral and Perplexity the reply text is choices[0].message.content |
| ApiService.ExtractAnthropicText | src/lib/api-service.ts:125-127 | for Anthropic the reply text is content[0].text |
| ApiService.ChatReplyText | src/lib/api-service.ts:119-145 | a schema-conforming 2xx body yields success with exactly its text, the empty string included, and the body as raw response |
| ApiService.ChatUpstreamError | src/lib/api-service.ts:111-117 | a non-2xx body's error.message is the failure text |
| ApiService.ChatUpstreamErrorFallback | src/lib/api-service.ts:111-117 | a non-2xx body whose error.message is absent or falsy gives "Failed to get response from AI service." |
| ApiService.ChatMissingContentIsEmpty | src/lib/api-service.ts:119-145 | a 2xx body whose list is empty, or whose first element has no truthy text, succeeds with the empty string |
| ApiService.ChatMissingListFails | src/lib/api-service.ts:119-152 | a 2xx body without the provider's list is caught and returned as a failure |
| ApiService.RateLimitedMessage | src/lib/api-service.ts:111-117 | a 429 with error.message "rate limited" fails with "rate limited" |
| ApiService.VoiceRequestFor | src/lib/api-service.ts:168-204 | ElevenLabs uses the voice id or EXAVITQu4vr4xnSDxMaL with Bearer auth; Google posts the text to texttospeech.googleapis.com/v1/text:synthesize with Bearer auth; Azure posts SSML around the text to the cognitiveservices/v1 URL with the subscription-key header and no Authorization |
| ApiService.SsmlEmbedsText | src/lib/api-service.ts:203 | the SSML document holds the text verbatim between its prefix and suffix |
| ApiService.PlanVoice | src/lib/api-service.ts:161-210 | no voice config or empty key fails as not configured; unknown provider fails; a request is built iff configured and known, and it is the provider's request for that configuration and text |
| ApiService.ToBytes | src/lib/api-service.ts:252-257 | one byte per character, each the character code modulo 256 |
| ApiService.ByteArray | src/lib/api-service.ts:252-257 | the index loop produces exactly ToBytes of the characters: one byte per character, each the character code modulo 256 |
| ApiService.ToBytesOfBinaryString | src/lib/api-service.ts:252-256 | on a binary string (codes below 256) byte i is exactly char code i |
| ApiService.AudioField | src/lib/api-service.ts:242 | a truthy audioContent is taken; otherwise audio, or undefined when absent; only a null body throws |
| ApiService.InterpretVoice | src/lib/api-service.ts:218-268 | non-ok gives "Voice API error: status statusText"; ElevenLabs succeeds with the response blob; Google/Azure fail with "No audio content in response" iff neither field is truthy; otherwise the bytes are exactly ToBytes of the decoded audio field; a decode error is the failure; duration always 0 |
| ApiService.VoiceAudioContent | src/lib/api-service.ts:242-268 | a non-empty audioContent string is decoded and its bytes returned |
| ApiService.VoiceAudioFallback | src/lib/api-service.ts:242-268 | with audioContent absent or falsy, a non-empty audio string is decoded instead |
| ApiService.VoiceNoAudio | src/lib/api-service.ts:242-250 | when neither audioContent nor audio is truthy the result is the no-audio failure |
| ApiService.TextToSpeech | src/lib/api-service.ts:158-276 | no voice configuration stored gives the not-configured failure |
| ApiService.VoiceFailsBeforeRequest | src/lib/api-service.ts:161-210 | without a usable voice configuration the result is a failure independent of the network |
| ApiService.SaveApiKey | src/lib/api-service.ts:279-284 | the stored chat config gets the new key and provider and keeps its model; voice config, memory and transcript unchanged |
| ApiService.SavedKeyEnablesChat | src/lib/api-service.ts:279-284 | after saving a non-empty key for a known provider the chat call gets past both guards |
| Memory.InitializeMemory | src/lib/memory.ts:18-51 | nothing stored gives English, empty history and reminders, and no name, struggles, important dates, last interaction or common topics, and stores that default; a stored memory is returned with the store unchanged |
| Memory.AddMoodEntry | src/lib/memory.ts:57-61 | history becomes the entry followed by the old history; every other field and key unchanged |
| Memory.AddReminder | src/lib/memory.ts:63-67 | reminders become the reminder followed by the old list; every other field and key unchanged |
| Memory.ToggleMatching | src/lib/memory.ts:71-73 | same length and order; each reminder keeps id, message and timestamp; completed flips exactly where the id matches |
| Memory.ToggleMatchingTwice | src/lib/memory.ts:69-75 | toggling the same id twice gives back the original list |
| Memory.ToggleReminder | src/lib/memory.ts:69-75 | only the reminders' completed flags change, as in ToggleMatching; other fields and keys unchanged |
| Memory.ToggleReminderTwice | src/lib/memory.ts:69-75 | with a memory stored, toggling the same id twice restores the store |
| Memory.UpdateUserName | src/lib/memory.ts:77-81 | only the name changes |
| Memory.UpdateLanguagePreference | src/lib/memory.ts:83-87 | only the preferred language changes |
| Memory.SaveMessages | src/lib/memory.ts:89-102 | the next getMessages returns exactly the saved list; other keys unchanged |
| Memory.ClearMessages | src/lib/memory.ts:93-107 | the next getMessages returns the empty list; other keys unchanged |
| Memory.ActiveReminders | src/lib/memory.ts:140 | holds exactly the reminders not completed |
| Memory.MoodsBlock | src/lib/memory.ts:125-133 | the Recent Moods paragraph is present iff the history is non-empty |
| Memory.RemindersBlock | src/lib/memory.ts:139-147 | the Active Reminders paragraph is present iff some reminder is open, and then starts with its header |
| Memory.MemoryContext | src/lib/memory.ts:113-149 | starts with "User Information:\n"; a Name line follows iff a name is set, otherwise the language line follows; ends with the active-reminders paragraph (empty when every reminder is completed) |
| Memory.ContextIgnoresOlderMoods | src/lib/memory.ts:125-133 | entries after the fifth cannot change the context |
| Memory.ContextIgnoresCompleted | src/lib/memory.ts:139-147 | dropping completed reminders does not change the context |
| Memory.ActiveIdempotent | src/lib/memory.ts:140 | filtering open reminders twice equals filtering once |
| Memory.CreateMemoryContext | src/lib/memory.ts:110-150 | the context of the current memory; an existing store is left as it is |
| UseChat.ModePrompt | src/hooks/use-chat.ts:9-20 | each mode maps to its prompt; the Normal prompt is produced iff no mode is chosen |
| UseChat.ModePromptInjective | src/hooks/use-chat.ts:9-20 | different modes give different prompts |
| UseChat.SystemPrompt | src/hooks/use-chat.ts:64-80 | the persona text holds the mode prompt between its fixed intro and rules |
| UseChat.WelcomeMessages | src/data/defaultConversation.ts:3-10 | one Eizi message, id "1", with the welcome text |
| UseChat.LoadMessages | src/hooks/use-chat.ts:31-40 | saved messages if any, else the initial messages if any, else the welcome; never empty |
| UseChat.PersistMessages | src/hooks/use-chat.ts:43-47 | a non-empty transcript is what getMessages returns next; an empty one writes nothing |
| UseChat.ReloadShowsSaved | src/hooks/use-chat.ts:31-47 | after the loaded transcript is saved, every later load shows it |
| UseChat.LastN | src/hooks/use-chat.ts:87 | the last n elements, or all when fewer |
| UseChat.ToChatMessage | src/hooks/use-chat.ts:87-90 | content kept; role user iff the sender is the user, otherwise assistant, never system |
| UseChat.ApiMessages | src/hooks/use-chat.ts:82-95 | the system prompt, then the last ten bubbles mapped in order, then the input once; at most 12; only the first is a system message |
| UseChat.ApiMessagesIgnoreOlder | src/hooks/use-chat.ts:87 | bubbles older than the last ten never reach the provider |
| UseChat.Reply | src/hooks/use-chat.ts:99-129 | an Eizi bubble with the given id; on success the provider text and no toast; on failure the fallback text and the error (or "Failed to get AI response") as toast |
| UseChat.HandleSendMessage | src/hooks/use-chat.ts:49-133 | blank input changes nothing; otherwise the old list is kept, the user bubble and exactly one Eizi bubble are appended, input cleared, typing off, mode kept |
| UseChat.SendReplyContent | src/hooks/use-chat.ts:99-129 | the appended Eizi bubble carries the response text on success and the fallback text on failure |
| UseChat.SendWithoutKeyFallsBack | src/hooks/use-chat.ts:99-129 | with no key stored, the reply is the fallback and the toast is the missing-key message |
| UseChat.HandleClearMessages | src/hooks/use-chat.ts:136-139 | the transcript becomes the welcome, nothing else in the state changes, and storage holds no transcript |
| UseChat.ClearThenReload | src/hooks/use-chat.ts:136-139 | after a clear and the save effect, the next load shows the welcome |
| Reminders.ReminderText | src/components/RemindersSection.tsx:15 | a non-empty suggestion as given, otherwise the trimmed input |
| Reminders.HandleAddReminder | src/components/RemindersSection.tsx:14-26 | empty text adds nothing and keeps the input; otherwise an open reminder with that text heads the list, nothing else in memory changes, and the input is cleared |
| Reminders.BlankInputAddsNothing | src/components/RemindersSection.tsx:14-16 | a whitespace-only input with no suggestion adds nothing |
| Reminders.CompletedReminders | src/components/RemindersSection.tsx:29 | holds exactly the completed reminders |
| Reminders.SplitInterleaves | src/components/RemindersSection.tsx:28-29 | the stored list is exactly the order-preserving interleaving of the active and completed lists, whose lengths sum to its length |
| Reminders.SplitDisjoint | src/components/RemindersSection.tsx:28-29 | no reminder is in both lists |
| Reminders.ViewReminders | src/components/RemindersSection.tsx:55-120 | five suggestions only when there are no reminders; exactly min(3, completed count) completed shown, as a prefix; "+N more" iff more than three, with shown + N = completed count |
| Reminders.RenderReminders | src/components/RemindersSection.tsx:10-29 | the card is the view of the current memory's reminders; an existing store is untouched; with nothing stored it shows the five suggestions and no reminders, and stores the default memory |
| Reminders.AddedHeadsActive | src/components/RemindersSection.tsx:14-29 | after an add the new reminder heads the active list and suggestions disappear |
| StableSort.SortBy | src/components/MoodHistory.tsx:14 | sorted by the key, a permutation, and stable: entries with equal keys keep their order |
| MoodHistory.ChartEntries | src/components/MoodHistory.tsx:12-14 | at most 14, in non-decreasing time order, a permutation of the first 14 entries |
| MoodHistory.ChartData | src/components/MoodHistory.tsx:12-24 | one point per chart entry, with parseInt of the mood id, the label, the colour without bg- and the date label |
| MoodHistory.ChartIgnoresOlder | src/components/MoodHistory.tsx:12-13 | entries after the fourteenth cannot change the chart |
| MoodHistory.StripsBg | src/components/MoodHistory.tsx:22 | a bg- class charts as the colour name that follows the prefix |
| MoodHistory.DigitIdParses | src/components/MoodHistory.tsx:17 | a one-digit id parses to that digit's value |
| MoodHistory.MoodIdsOnScale | src/lib/memory.ts:8-15 | the six tracker moods parse to values from 1 to 6 |
| MoodHistory.MoodColorsStripped | src/lib/memory.ts:8-15 | each tracker mood charts in the colour its bg- class names |
| MoodHistory.ChartOnScale | src/components/MoodHistory.tsx:15-20 | a history of tracker moods charts entirely on the 1 to 6 scale |
| MoodHistory.ChartEntriesFromHistory | src/components/MoodHistory.tsx:12-14 | every charted entry comes from the history |
| MoodHistory.DayKeys | src/components/MoodHistory.tsx:27-34 | each day key of the history once, and nothing else |
| MoodHistory.Push | src/components/MoodHistory.tsx:29-32 | appends the entry to its day's group, or opens a new group at the end |
| MoodHistory.GroupByDay | src/components/MoodHistory.tsx:27-34 | the groups' keys are exactly the history's day keys, each once |
| MoodHistory.GroupByDayContents | src/components/MoodHistory.tsx:27-34 | each group holds exactly its day's entries in history order |
| MoodHistory.EntryInItsGroup | src/components/MoodHistory.tsx:27-34 | every entry sits in the group of its own day |
| MoodHistory.DateEntries | src/components/MoodHistory.tsx:36-38 | at most seven groups, newest day first, a sub-multiset of the grouping, and no unlisted day is newer than a listed one |
| MoodHistory.NewestListed | src/components/MoodHistory.tsx:36-38 | a prefix of the newest-first order is ordered, repeats nothing, and omits only days no newer than those it lists |
| MoodHistory.ViewMoodHistory | src/components/MoodHistory.tsx:9-46 | the chart and day list are computed from the current memory's history; both render iff there are more than one entries; an existing store is untouched; with nothing stored both are empty and the default memory is stored |
| MoodTracker.SelectMood | src/components/MoodTracker.tsx:20-26 | the mood becomes the selection and the card expands, note kept; the callback is told the mood iff one is given |
| MoodTracker.SavedNote | src/components/MoodTracker.tsx:33 | absent iff the note is all whitespace; otherwise the trimmed note, with no blank at either end |
| MoodTracker.SaveMood | src/components/MoodTracker.tsx:28-42 | no selection changes nothing; otherwise an entry with the mood and saved note heads the history, the rest is the old history, and the form resets |
| MoodTracker.SelectThenSave | src/components/MoodTracker.tsx:20-42 | select then save records exactly that mood and the trimmed note, leaving the form reset |
| NetlifyProxy.ParsedEnvelope | netlify/functions/openai-proxy.ts:15 | a missing or empty body is the empty object; only malformed text fails to parse |
| NetlifyProxy.MethodOr | netlify/functions/openai-proxy.ts:18 | a falsy method becomes POST; a non-empty string method is kept |
| NetlifyProxy.PlanRelay | netlify/functions/openai-proxy.ts:7-24 | non-POST is 405; forwarding happens iff POST and the body parses to non-null; URL is base plus endpoint, verb from MethodOr, server headers, payload as given; otherwise 500 |
| NetlifyProxy.InterpretRelay | netlify/functions/openai-proxy.ts:26-47 | a non-ok answer is mirrored with its status and body; ok becomes 200 with the body; thrown errors become 500 |
| NetlifyProxy.Handler | netlify/functions/openai-proxy.ts:5-48 | non-POST is 405; a forwarded request's answer is interpreted as above |
| NetlifyProxy.NonPostNeverForwards | netlify/functions/openai-proxy.ts:7-12 | a non-POST answer does not depend on the network |
| NetlifyProxy.MissingBodyIsEmptyEnvelope | netlify/functions/openai-proxy.ts:15 | a missing or empty event body behaves as "{}" |
| NetlifyProxy.EmptyEnvelopeRequest | netlify/functions/openai-proxy.ts:15-24 | the empty envelope is a POST to the base URL followed by "undefined", with no body |
| NetlifyProxy.CredentialsFromServerOnly | netlify/functions/openai-proxy.ts:19-22 | the forwarded headers are the same whatever envelope the caller sends |
| NetlifyProxy.EnvelopeForwarded | netlify/functions/openai-proxy.ts:15-24 | a well-formed envelope reaches its endpoint with its verb and payload |
| ProxyServer.ForwardedBody | proxy-server/server.js:41 | a truthy payload is forwarded as is; a falsy one is dropped |
| ProxyServer.PlanProxy | proxy-server/server.js:32-42 | fails with 500 iff the request body is null or undefined; otherwise base plus endpoint, the method or POST, the server headers and the forwarded body |
| ProxyServer.InterpretProxy | proxy-server/server.js:44-55 | non-ok mirrored with status and data; ok is 200 with the data; failures are 500 "Internal Server Error" |
| ProxyServer.HandleProxy | proxy-server/server.js:30-56 | a missing body is 500; otherwise the forwarded request's answer is interpreted as above |
| ProxyServer.LimitsRequest | proxy-server/server.js:61-65 | a GET of /usage carrying only the bearer token |
| ProxyServer.HandleLimits | proxy-server/server.js:59-71 | parsed data is returned with 200 whatever the upstream status; a network failure or an unparsable body gives 500 "Failed to fetch rate limits" |
| ProxyServer.LimitsIgnoreUpstreamStatus | proxy-server/server.js:59-71 | `/api/limits` answers 200 iff the upstream body parses; two replies with the same body give the same answer whatever their statuses |
| ProxyServer.ProxyStatuses | proxy-server/server.js:44-55 | every answer is 500, 200 after forwarding, or the upstream's own non-ok status |
| ProxyServer.CredentialsFromServerOnly | proxy-server/server.js:36-40 | the forwarded headers are the same whatever envelope the caller sends |
| ProxyServer.FalsyPayloadDropped | proxy-server/server.js:41 | a null or empty-string payload is not sent upstream |
| ApiClient.EnvelopeBody | src/lib/api.ts:22 | no body and the empty string give undefined; a serialized value comes back as that value |
| ApiClient.PlanFetchApi | src/lib/api.ts:14-24 | a POST to the relay's /api/proxy with JSON headers and the envelope of endpoint, options.method and parsed body; fails only when the body does not parse |
| ApiClient.InterpretFetchApi | src/lib/api.ts:26-32 | ok data resolves unchanged; an ApiError only for a non-ok reply and with its status; a non-ok non-null body always gives an ApiError; an ApiError message other than "An error occurred" is the string form of the body's truthy `message` |
| ApiClient.FetchApi | src/lib/api.ts:10-33 | a parse error rejects before any request; otherwise the relay's answer is interpreted as above |
| ApiClient.Stringify | src/lib/api.ts:43 | only undefined stays absent |
| ApiClient.Get | src/lib/api.ts:36-37 | the envelope carries GET whatever the options say |
| ApiClient.Post | src/lib/api.ts:39-44 | the envelope carries POST and the caller's value itself |
| ApiClient.Put | src/lib/api.ts:46-51 | the envelope carries PUT and the caller's value itself |
| ApiClient.Delete | src/lib/api.ts:53-54 | the envelope carries DELETE whatever the options say |
| ApiClient.ErrorMessage | src/lib/api.ts:28-30 | a non-ok object body without a truthy message gives "An error occurred"; a truthy message is used in its string form, a non-empty string as is |
| ApiClient.NonObjectErrorBody | src/lib/api.ts:28-30 | a non-ok body that is a string, number, boolean or array gives "An error occurred" |
| ApiClient.NullErrorBodyRejects | src/lib/api.ts:29 | a non-ok null body rejects with the TypeError of reading message |
| ApiClient.EnvelopeJson | src/lib/api.ts:19-23 | the envelope object has the endpoint, and method and body exactly when defined |
| ApiClient.EnvelopeReachesUpstream | src/lib/api.ts:14-24 | through the Express relay, the verb and endpoint arrive as given and the body as the relay forwards it |
| Js.Trim | src/components/RemindersSection.tsx:15 | empty iff the input is all whitespace; otherwise no blank at either end; always the infix of the input between a blank prefix and a blank suffix |
| Js.ParseIntDecimal | src/components/MoodHistory.tsx:17 | parseInt reads back the decimal rendering of any integer |
| Js.Take | src/components/MoodHistory.tsx:13 | slice(0, n) is the prefix of length min(n, length) |
| Js.IndexOf | src/components/MoodHistory.tsx:22 | the first occurrence of the pattern, or none at all |
| Js.ReplaceLeadingPrefix | src/components/MoodHistory.tsx:22 | replacing a leading pattern with "" leaves exactly the rest |

## Left out

- Network, blobs and decoding. `fetch`, `response.json()`/`text()`/`blob()`, `URL.createObjectURL`, `Blob` and `atob` are not modelled. The upstream outcome is a parameter, `atob` is the `decode` parameter, and the object URL is not represented.
- `Date`, `Date.now()` and locale formatting are not modelled. Clock readings are integer and timestamp parameters. `toLocaleDateString` (the day key and the chart label) and `new Date(key).getTime()` are function parameters.
- MoodHistory.GroupByDay: keeps groups in first-appearance order. `Object.entries` would list keys that look like array indices first; locale day keys are assumed never to be such strings.
- MoodHistory.DateEntries: the day value is an integer. A day key that does not parse (NaN from `getTime`) is not modelled.
- Floating point is not modelled. Temperature, stability and similarity boost are opaque `real` constants; nothing computes with them.
- JSON serialisation is not modelled. JSON numbers are integers; `JSON.stringify` then `JSON.parse` of stored records is the identity; `JSON.parse` of caller-supplied text in `src/lib/api.ts` is the `parse` parameter. `parseInt`'s NaN is `None`.
- Express and runtime plumbing are not modelled: app setup, CORS, `listen`, `dotenv` and `console` logging. `/health` is the constant `ProxyServer.HealthResponse`.
- React scheduling and UI side effects are not modelled. State updates, effects, toasts and the intermediate `isTyping = true` state of a send are folded into one step per handler. The toast text is kept as the `notice` of a send.
- The `onMoodSelect` callback is not run. The model reports only which mood it would receive.
- The `initializeMemory()` call in the chat hook's body is not modelled; its only effect is the default-memory write that `Memory.InitializeMemory` models. The same call in the reminders and mood-history cards is modelled by `Reminders.RenderReminders` and `MoodHistory.ViewMoodHistory`.
- UseChat.ModePrompt: the mode type admits only the three modes and "none". A stray runtime string, which the source also maps to the Normal prompt, cannot be expressed.
- MoodHistory.MoodIdsOnScale: proves the 1 to 6 range, not which id has which value.
- ApiService.InterpretChat: a truthy non-string `error.message` or reply `content` is rendered with `String(v)` at once. The source hands the raw value on. For a value whose `String(v)` is empty (such as `[]`), the chat hook's `new Error(v)` then shows an empty toast, while the model's empty error falls back to "Failed to get AI response".
- ApiService.SaveApiKey: the default argument `provider = 'openai'` is not modelled. The model always takes the provider explicitly.
- ApiService.SendChatMessage and ApiService.TextToSpeech: state only the configuration-level guarantees. The full response mapping is stated on the plan and interpretation functions they compose.
- Strings are sequences of Unicode scalar values, not UTF-16 code units. `v[0]`, `charCodeAt` and lengths agree with JavaScript only on text within the Basic Multilingual Plane; a character outside it (an emoji, say) is one element here and two code units there.
- JSX rendering is not modelled: the markup of the cards, and the pages and chat components that only display state.
