/**
 * onGenerateBefore (index.js) as a pure transition: from the settings, the chat
 * and the outcome of the network call to the new settings, the value written
 * to the host variable `processed_memory`, and the calls made.
 */
module Processor {
  import opened Wrappers
  import opened Config
  import opened History
  import opened MemoryApi

  /** The cached memory is reused while the chat length has drifted by less than this. */
  const CacheDrift: int := 2

  function Abs(x: int): nat { if x < 0 then -x else x }

  /**
   * The cache-hit test: a non-empty cached memory and a chat whose length is
   * within one of the length it was computed from, whether the chat grew or shrank.
   */
  function CacheHit(cachedMemory: string, chatLength: int, lastProcessedLength: int): (hit: bool)
    ensures hit <==>
      cachedMemory != "" && lastProcessedLength - 1 <= chatLength <= lastProcessedLength + 1
  {
    cachedMemory != "" && Abs(chatLength - lastProcessedLength) < CacheDrift
  }

  /**
   * The outputs of one step: the settings afterwards, the value written to
   * `processed_memory` (`None`: nothing written), whether callMemoryAPI was
   * invoked, and the request it sent (`None`: no request left the extension).
   */
  datatype StepResult = StepResult(
    settings: Settings,
    written: Option<string>,
    apiCalled: bool,
    request: Option<Request>
  )

  /**
   * The history text a cache miss sends: for a bound N of at least 1, the text
   * of the last min(N, |chat|) entries; for N = 0, the text of the whole chat.
   */
  function HistoryText(settings: Settings, chat: seq<Message>): (text: string)
    ensures settings.maxHistoryMessages >= 1 ==>
      text == Format(chat[|chat| - Min(settings.maxHistoryMessages, |chat|)..])
    ensures settings.maxHistoryMessages == 0 ==> text == Format(chat)
  {
    FormatWindow(chat, settings.maxHistoryMessages);
    Format(Window(chat, settings.maxHistoryMessages))
  }

  /**
   * One run of onGenerateBefore. `network` is what the request would produce if
   * one is issued; the chat is fixed for the duration of the step.
   */
  function OnGenerateBefore(settings: Settings, chat: seq<Message>, network: NetworkOutcome): (r: StepResult)
    // disabled, or nothing to summarise: nothing happens
    ensures !settings.enabled || |chat| == 0 ==> r == StepResult(settings, None, false, None)
    // a cache hit writes the cached memory and changes nothing else
    ensures settings.enabled && |chat| > 0 && CacheHit(settings.cachedMemory, |chat|, settings.lastProcessedLength) ==>
      r == StepResult(settings, Some(settings.cachedMemory), false, None)
    // callMemoryAPI is invoked exactly on an enabled, non-empty cache miss;
    // a request leaves only when, in addition, the URL and the key are set
    ensures r.apiCalled <==>
      settings.enabled && |chat| > 0 && !CacheHit(settings.cachedMemory, |chat|, settings.lastProcessedLength)
    ensures r.apiCalled ==> r.request == BuildRequest(settings, HistoryText(settings, chat))
    ensures !r.apiCalled ==> r.request.None?
    // on a miss, the value written is exactly what callMemoryAPI returned
    ensures r.apiCalled ==> r.written == CallMemoryApi(settings, HistoryText(settings, chat), network).memory
    // corollary of the clause above: a request answered with non-empty content writes that content
    ensures r.apiCalled && r.request.Some? && network.Some? && ExtractContent(network.value).Some? ==>
      r.written == ExtractContent(network.value)
    // a failed or unconfigured call leaves the settings, and so the cache, as they were
    ensures r.written.None? ==> r.settings == settings
    // a successful call replaces the cache with the reply, stamped with the chat length
    ensures r.apiCalled && r.written.Some? ==>
      && r.request.Some? && network.Some?
      && r.written == ExtractContent(network.value)
      && r.settings == settings.(cachedMemory := r.written.value, lastProcessedLength := |chat|)
    // the variable, when written, is non-empty and equal to the cache afterwards
    ensures r.written.Some? ==> r.written.value != "" && r.written.value == r.settings.cachedMemory
  {
    if !settings.enabled || |chat| == 0 then
      StepResult(settings, None, false, None)
    else if CacheHit(settings.cachedMemory, |chat|, settings.lastProcessedLength) then
      StepResult(settings, Some(settings.cachedMemory), false, None)
    else
      var call := CallMemoryApi(settings, HistoryText(settings, chat), network);
      match call.memory
      case Some(memory) =>
        StepResult(settings.(cachedMemory := memory, lastProcessedLength := |chat|), Some(memory), true, call.request)
      case None =>
        StepResult(settings, None, true, call.request)
  }

  /** The hit test does not depend on the sign of the drift. */
  lemma CacheHitSymmetric(cachedMemory: string, a: int, b: int)
    ensures CacheHit(cachedMemory, a, b) == CacheHit(cachedMemory, b, a)
  {
  }

  /**
   * After a step that stored a fresh memory, a further step on a chat of the same
   * length, or one entry longer or shorter, is a cache hit: no request, and the
   * same memory is written again.
   */
  lemma RefreshThenHit(settings: Settings, chat: seq<Message>, network: NetworkOutcome,
                       chat': seq<Message>, network': NetworkOutcome)
    requires OnGenerateBefore(settings, chat, network).apiCalled
    requires OnGenerateBefore(settings, chat, network).written.Some?
    requires |chat'| > 0 && |chat| - 1 <= |chat'| <= |chat| + 1
    ensures
      var r := OnGenerateBefore(settings, chat, network);
      OnGenerateBefore(r.settings, chat', network') == StepResult(r.settings, r.written, false, None)
  {
  }

  /**
   * With the default settings (no URL, no key, empty cache) a non-empty chat
   * always misses the cache, but no request is sent and nothing is written.
   */
  lemma DefaultsWriteNothing(prompt: string, chat: seq<Message>, network: NetworkOutcome)
    requires |chat| > 0
    ensures OnGenerateBefore(Defaults(prompt), chat, network) == StepResult(Defaults(prompt), None, true, None)
  {
  }

  /** One generation event as the step sees it: the chat and the network outcome. */
  datatype Event = Event(chat: seq<Message>, network: NetworkOutcome)

  /** The settings after a sequence of generation events, handled one after another. */
  function Run(settings: Settings, events: seq<Event>): Settings
    decreases |events|
  {
    if |events| == 0 then settings
    else Run(OnGenerateBefore(settings, events[0].chat, events[0].network).settings, events[1..])
  }

  /** Settings that agree with `s` everywhere except possibly in the two cache fields. */
  predicate SameConfiguration(s: Settings, t: Settings) {
    s.(cachedMemory := t.cachedMemory, lastProcessedLength := t.lastProcessedLength) == t
  }

  /** The step only ever writes the two cache fields; the configuration survives any run. */
  lemma {:induction false} RunKeepsConfiguration(settings: Settings, events: seq<Event>)
    ensures SameConfiguration(Run(settings, events), settings)
    decreases |events|
  {
    if |events| > 0 {
      var s' := OnGenerateBefore(settings, events[0].chat, events[0].network).settings;
      RunKeepsConfiguration(s', events[1..]);
    }
  }

  /** Once a memory is cached, no later event empties the cache. */
  lemma {:induction false} RunKeepsCacheNonEmpty(settings: Settings, events: seq<Event>)
    requires settings.cachedMemory != ""
    ensures Run(settings, events).cachedMemory != ""
    decreases |events|
  {
    if |events| > 0 {
      var s' := OnGenerateBefore(settings, events[0].chat, events[0].network).settings;
      RunKeepsCacheNonEmpty(s', events[1..]);
    }
  }

  /** Without a URL or a key no request ever leaves, so no run changes the settings. */
  lemma {:induction false} RunUnconfiguredIsInert(settings: Settings, events: seq<Event>)
    requires settings.apiUrl == "" || settings.apiKey == ""
    ensures Run(settings, events) == settings
    decreases |events|
  {
    if |events| > 0 {
      var r := OnGenerateBefore(settings, events[0].chat, events[0].network);
      assert r.settings == settings;
      RunUnconfiguredIsInert(settings, events[1..]);
    }
  }
}
