/** The extension's settings record and its one-time installation (index.js, loadSettings). */
module Config {
  import opened Wrappers

  /** Key under which the host's settings registry holds this extension's settings. */
  const ModuleName: string := "memory-processor"

  /**
   * The settings object. The last two fields are the cache: the most recent
   * memory the service returned and the chat length it was computed from.
   * `maxHistoryMessages` is an unbounded integer: the settings panel may store
   * zero or a negative number there.
   */
  datatype Settings = Settings(
    enabled: bool,
    apiUrl: string,
    apiKey: string,
    model: string,
    maxHistoryMessages: int,
    memoryPrompt: string,
    cachedMemory: string,
    lastProcessedLength: int
  )

  /** The default model name and history bound. */
  const DefaultModel: string := "gpt-4o-mini"
  const DefaultMaxHistory: int := 50

  /**
   * The default settings. The default prompt is long configuration text and is a
   * parameter here; every other field is the literal default: enabled, no URL,
   * no key, an empty cache computed from a chat of length 0.
   */
  function Defaults(prompt: string): (d: Settings)
    ensures d.enabled && d.apiUrl == "" && d.apiKey == ""
    ensures d.model == DefaultModel && d.maxHistoryMessages == DefaultMaxHistory
    ensures d.memoryPrompt == prompt
    ensures d.cachedMemory == "" && d.lastProcessedLength == 0
  {
    Settings(true, "", "", DefaultModel, DefaultMaxHistory, prompt, "", 0)
  }

  /**
   * The host's registry of extension settings. A key may be present with a
   * falsy value (`null`, `false`, `0`, `""`); that is `None` here.
   */
  type Registry = map<string, Option<Settings>>

  /** The registry holds usable settings for this extension. */
  predicate Installed(registry: Registry) {
    ModuleName in registry && registry[ModuleName].Some?
  }

  /**
   * Installs a copy of the defaults under `ModuleName` unless the registry
   * already holds settings there; a falsy entry counts as none and is replaced.
   * Every other extension's entry is left as it was.
   */
  function LoadSettings(registry: Registry, prompt: string): (r: Registry)
    ensures Installed(r)
    ensures r.Keys == registry.Keys + {ModuleName}
    ensures forall k :: k in registry && k != ModuleName ==> r[k] == registry[k]
    ensures Installed(registry) ==> r == registry
    ensures !Installed(registry) ==> r[ModuleName] == Some(Defaults(prompt))
  {
    if Installed(registry) then registry else registry[ModuleName := Some(Defaults(prompt))]
  }

  /** Loading twice is loading once, whatever default prompt the second load carries. */
  lemma LoadSettingsIdempotent(registry: Registry, prompt: string, prompt': string)
    ensures LoadSettings(LoadSettings(registry, prompt), prompt') == LoadSettings(registry, prompt)
  {
  }
}
