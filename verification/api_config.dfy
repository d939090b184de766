/** The persisted API settings (src/lib/api-config.ts). */
module ApiConfigStore {
  import opened Wrappers
  import opened Types
  import opened Storage

  /** The configuration in force while nothing is stored: OpenAI, no key, gpt-3.5-turbo. */
  const DefaultConfig := ApiConfig(ChatAIConfig(OpenAI, "", "gpt-3.5-turbo"), None)

  /** `loadApiConfig`: the stored configuration, or the default one when the key is absent. */
  function LoadApiConfig(store: LocalStore): (c: ApiConfig)
    ensures store.apiConfig.None? ==>
              c.chatAI.provider == OpenAI && c.chatAI.apiKey == "" &&
              c.chatAI.model == "gpt-3.5-turbo" && c.voiceAI.None?
    ensures store.apiConfig.Some? ==> c == store.apiConfig.value
  {
    store.apiConfig.GetOr(DefaultConfig)
  }

  /** `saveApiConfig`: stores `config` so that the next load returns exactly it. */
  function SaveApiConfig(store: LocalStore, config: ApiConfig): (s: LocalStore)
    ensures LoadApiConfig(s) == config
    ensures s.userMemory == store.userMemory && s.conversations == store.conversations
  {
    store.(apiConfig := Some(config))
  }
}
