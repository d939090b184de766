/**
 * The chat hook (src/hooks/use-chat.ts): the mode prompt, the initial
 * transcript, the message list sent to the chat provider, and what a send or
 * a clear does to the transcript. React's asynchronous state updates are
 * folded into one step per handler; the clock readings are parameters.
 */
module UseChat {
  import opened Wrappers
  import opened Js
  import opened Types
  import opened Storage
  import opened Http
  import Memory
  import ApiService
  import ApiConfigStore

  /** The conversation modes of the mode selector; no selection is `None`. */
  datatype ChatMode = RealTalk | SoftTalk | LowBattery

  const RealPrompt := "You are in Real Talk mode. Challenge the user. Test their assumptions. Push their thinking. Prioritize truth and clarity over comfort. Ask deep, thought-provoking questions."
  const SoftPrompt := "You are in Soft Talk mode. Be gentle, supportive, and validating, while still helping them grow. Ask reflective, safe questions. Stay kind and warm."
  const LowBatteryPrompt := "You are in Low-Battery Talk mode. The user is tired or emotionally drained. No deep questions. Don't challenge. Keep your responses short, direct, and supportive. Talk like a chill human friend would."
  const NormalPrompt := "You are in Normal Talk mode (default). Keep things casual but real. Respond like a thoughtful human. Avoid excessive questions. Don't push for depth unless they invite it."

  /** `getModePrompt`: one prompt per mode, and the Normal prompt when no mode is chosen. */
  function ModePrompt(mode: Option<ChatMode>): (r: string)
    ensures r == NormalPrompt <==> mode.None?
    ensures mode == Some(RealTalk) ==> r == RealPrompt
    ensures mode == Some(SoftTalk) ==> r == SoftPrompt
    ensures mode == Some(LowBattery) ==> r == LowBatteryPrompt
  {
    match mode
    case None => NormalPrompt
    case Some(RealTalk) => RealPrompt
    case Some(SoftTalk) => SoftPrompt
    case Some(LowBattery) => LowBatteryPrompt
  }

  /** Different modes give different prompts. */
  lemma ModePromptInjective(a: Option<ChatMode>, b: Option<ChatMode>)
    requires ModePrompt(a) == ModePrompt(b)
    ensures a == b
  {
    assert |RealPrompt| == 173 && |SoftPrompt| == 148 && |LowBatteryPrompt| == 200 && |NormalPrompt| == 171;
  }

  const PromptIntro := "You are Eizi, an emotionally intelligent AI that helps users grow through honest, challenging, and reflective conversations \U{2014} but only when they're ready.\n\n"
  const PromptRules := "\n\nIn all modes:\n* Mirror the user's tone and energy.\n* If they're spiraling, pause them and stabilize first.\n* If they're being dishonest with themselves, call it out \U{2014} respectfully but clearly.\n* Never pretend to have emotions or experiences. You're not a human. You're an emotional performance coach with deep psychological insight.\n\nDefault to:\n* Presence before pressure.\n* Insight over interrogation.\n* Truth over agreement.\n* Growth that respects pacing.\n\nDo not go deep without emotional permission. Stay adaptive and intentional."

  /** `eiziPrompt`: the fixed persona text with the mode prompt in the middle. */
  function SystemPrompt(mode: Option<ChatMode>): (r: string)
    ensures |r| == |PromptIntro| + |ModePrompt(mode)| + |PromptRules|
    ensures r[|PromptIntro|..|PromptIntro| + |ModePrompt(mode)|] == ModePrompt(mode)
    ensures r[..|PromptIntro|] == PromptIntro && r[|r| - |PromptRules|..] == PromptRules
  {
    var r := PromptIntro + ModePrompt(mode) + PromptRules;
    assert r[|PromptIntro|..|PromptIntro| + |ModePrompt(mode)|] == ModePrompt(mode);
    r
  }

  // ------------------------------------------------------------ transcript

  const WelcomeText := "Hi, I'm Eizi. I'm here to have honest, thoughtful conversations with you. Let's start casual - you can always change the energy of our chat using the mode buttons below."

  /** `welcomeMessages`, stamped when the module was loaded. */
  function WelcomeMessages(loadedAt: Timestamp): (r: seq<Message>)
    ensures |r| == 1 && r[0].id == "1" && r[0].sender == FromEizi && r[0].content == WelcomeText
  {
    [Message("1", WelcomeText, FromEizi, loadedAt)]
  }

  /** The load effect: the saved transcript, else the caller's messages, else the welcome. */
  function LoadMessages(store: LocalStore, initial: seq<Message>, loadedAt: Timestamp): (r: seq<Message>)
    ensures |r| > 0
    ensures |Memory.GetMessages(store)| > 0 ==> r == Memory.GetMessages(store)
    ensures |Memory.GetMessages(store)| == 0 && |initial| > 0 ==> r == initial
    ensures |Memory.GetMessages(store)| == 0 && |initial| == 0 ==> r == WelcomeMessages(loadedAt)
  {
    var saved := Memory.GetMessages(store);
    if |saved| > 0 then saved
    else if |initial| > 0 then initial
    else WelcomeMessages(loadedAt)
  }

  /** The save effect: a non-empty transcript is written back; an empty one is not. */
  function PersistMessages(messages: seq<Message>, store: LocalStore): (s: LocalStore)
    ensures |messages| > 0 ==> Memory.GetMessages(s) == messages
    ensures |messages| == 0 ==> s == store
    ensures s.apiConfig == store.apiConfig && s.userMemory == store.userMemory
  {
    if |messages| > 0 then Memory.SaveMessages(store, messages) else store
  }

  /** Once the loaded transcript is saved, every later load shows the same transcript. */
  lemma ReloadShowsSaved(store: LocalStore, initial: seq<Message>, loadedAt: Timestamp,
                         laterInitial: seq<Message>, laterLoad: Timestamp)
    ensures var shown := LoadMessages(store, initial, loadedAt);
            LoadMessages(PersistMessages(shown, store), laterInitial, laterLoad) == shown
  {
  }

  // ------------------------------------------------------------ outgoing list

  /** `slice(-n)`: the last `n` elements, or all of them when there are fewer. */
  function LastN<T>(s: seq<T>, n: nat): (r: seq<T>)
    ensures |r| == if |s| <= n then |s| else n
    ensures r == s[|s| - |r|..]
  {
    if |s| <= n then s else s[|s| - n..]
  }

  const HistoryWindow := 10

  /** A transcript bubble as a provider message: the user's bubbles are `user`, all others `assistant`. */
  function ToChatMessage(m: Message): (r: ChatMessage)
    ensures r.content == m.content
    ensures r.role == UserRole <==> m.sender == FromUser
    ensures r.role != SystemRole
  {
    ChatMessage(if m.sender == FromUser then UserRole else AssistantRole, m.content)
  }

  /** `apiMessages`: the system prompt, the last ten bubbles in order, then the new input. */
  function ApiMessages(mode: Option<ChatMode>, history: seq<Message>, input: string): (r: seq<ChatMessage>)
    ensures |r| == 2 + |LastN(history, HistoryWindow)| && |r| <= HistoryWindow + 2
    ensures r[0] == ChatMessage(SystemRole, SystemPrompt(mode))
    ensures r[|r| - 1] == ChatMessage(UserRole, input)
    ensures forall i :: 0 <= i < |LastN(history, HistoryWindow)| ==>
              r[i + 1] == ToChatMessage(LastN(history, HistoryWindow)[i])
    ensures forall i :: 0 < i < |r| - 1 ==> r[i].role != SystemRole
  {
    var recent := LastN(history, HistoryWindow);
    [ChatMessage(SystemRole, SystemPrompt(mode))]
      + seq(|recent|, i requires 0 <= i < |recent| => ToChatMessage(recent[i]))
      + [ChatMessage(UserRole, input)]
  }

  /** Bubbles older than the last ten never reach the provider. */
  lemma ApiMessagesIgnoreOlder(mode: Option<ChatMode>, older: seq<Message>, history: seq<Message>, input: string)
    requires |history| >= HistoryWindow
    ensures ApiMessages(mode, older + history, input) == ApiMessages(mode, history, input)
  {
    assert LastN(older + history, HistoryWindow) == LastN(history, HistoryWindow);
  }

  // ------------------------------------------------------------ handlers

  datatype ChatState = ChatState(messages: seq<Message>, inputText: string, isTyping: bool, mode: Option<ChatMode>)

  const FallbackText := "I'm having trouble connecting to my AI services. Please check your API settings or try again later."
  const DefaultFailureNotice := "Failed to get AI response"

  /** The state after a send, and the text of the error toast when the provider call failed. */
  datatype Sent = Sent(state: ChatState, notice: Option<string>)

  /** The reply bubble and toast for a provider response. */
  function Reply(response: ApiService.ApiResponse<ApiService.ChatData>, id: string, stamp: Timestamp): (r: (Message, Option<string>))
    ensures r.0.sender == FromEizi && r.0.id == id
    ensures response.Success? ==> r.0.content == response.data.message.content && r.1.None?
    ensures response.Failure? ==> r.0.content == FallbackText && r.1.Some? && r.1.value != ""
    ensures response.Failure? && response.error != "" ==> r.1 == Some(response.error)
  {
    match response
    case Success(data) => (Message(id, data.message.content, FromEizi, stamp), None)
    case Failure(error) =>
      (Message(id, FallbackText, FromEizi, stamp), Some(if error != "" then error else DefaultFailureNotice))
  }

  /**
   * `handleSendMessage`. A blank input does nothing. Otherwise the user's
   * bubble and exactly one reply bubble are appended, the input is cleared
   * and typing ends. `sentAt` and `repliedAt` are the two `Date.now()`
   * readings; `sentStamp` and `replyStamp` the two `new Date()` ones.
   */
  function HandleSendMessage(state: ChatState, store: LocalStore, fetch: ApiService.ChatRequest -> Outcome,
                             sentAt: int, sentStamp: Timestamp, repliedAt: int, replyStamp: Timestamp): (r: Sent)
    ensures Trim(state.inputText) == "" ==> r == Sent(state, None)
    ensures Trim(state.inputText) != "" ==>
              && |r.state.messages| == |state.messages| + 2
              && r.state.messages[..|state.messages|] == state.messages
              && r.state.messages[|state.messages|]
                   == Message(DecimalString(sentAt), state.inputText, FromUser, sentStamp)
              && r.state.messages[|state.messages| + 1].sender == FromEizi
              && r.state.messages[|state.messages| + 1].id == DecimalString(repliedAt + 1)
              && r.state.inputText == "" && !r.state.isTyping && r.state.mode == state.mode
  {
    if Trim(state.inputText) == "" then Sent(state, None)
    else
      var user := Message(DecimalString(sentAt), state.inputText, FromUser, sentStamp);
      var request := ApiMessages(state.mode, state.messages, state.inputText);
      var response := ApiService.SendChatMessage(store, request, ApiService.NoOptions, fetch);
      var (reply, notice) := Reply(response, DecimalString(repliedAt + 1), replyStamp);
      Sent(ChatState(state.messages + [user, reply], "", false, state.mode), notice)
  }

  /** The reply bubble carries the provider's text on success and the fallback text otherwise. */
  lemma SendReplyContent(state: ChatState, store: LocalStore, fetch: ApiService.ChatRequest -> Outcome,
                         sentAt: int, sentStamp: Timestamp, repliedAt: int, replyStamp: Timestamp)
    requires Trim(state.inputText) != ""
    ensures var response := ApiService.SendChatMessage(store, ApiMessages(state.mode, state.messages, state.inputText),
                                                       ApiService.NoOptions, fetch);
            var r := HandleSendMessage(state, store, fetch, sentAt, sentStamp, repliedAt, replyStamp);
            var reply := r.state.messages[|state.messages| + 1];
            && (response.Success? ==> reply.content == response.data.message.content && r.notice.None?)
            && (response.Failure? ==> reply.content == FallbackText && r.notice.Some?)
  {
  }

  /** With no API key, a send appends the fallback reply whatever the network would have done. */
  lemma SendWithoutKeyFallsBack(state: ChatState, store: LocalStore, fetch: ApiService.ChatRequest -> Outcome,
                                sentAt: int, sentStamp: Timestamp, repliedAt: int, replyStamp: Timestamp)
    requires Trim(state.inputText) != ""
    requires ApiConfigStore.LoadApiConfig(store).chatAI.apiKey == ""
    ensures var r := HandleSendMessage(state, store, fetch, sentAt, sentStamp, repliedAt, replyStamp);
            && r.state.messages[|state.messages| + 1].content == FallbackText
            && r.notice == Some(ApiService.ApiKeyMissing)
  {
  }

  /** `handleClearMessages`: the transcript shows the welcome again and storage is cleared. */
  function HandleClearMessages(state: ChatState, store: LocalStore, loadedAt: Timestamp): (r: (ChatState, LocalStore))
    ensures r.0.messages == WelcomeMessages(loadedAt)
    ensures r.0 == state.(messages := r.0.messages)
    ensures Memory.GetMessages(r.1) == []
    ensures r.1.apiConfig == store.apiConfig && r.1.userMemory == store.userMemory
  {
    (state.(messages := WelcomeMessages(loadedAt)), Memory.ClearMessages(store))
  }

  /** After a clear, the save effect stores the welcome, so the next load shows it. */
  lemma ClearThenReload(state: ChatState, store: LocalStore, loadedAt: Timestamp,
                        initial: seq<Message>, laterLoad: Timestamp)
    ensures var (cleared, s) := HandleClearMessages(state, store, loadedAt);
            LoadMessages(PersistMessages(cleared.messages, s), initial, laterLoad) == WelcomeMessages(loadedAt)
  {
  }
}
