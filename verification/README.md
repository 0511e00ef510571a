# memory-processor: the cache-and-refresh step, in Dafny

The memory-processor extension hooks the host's "generation started" event.
Before each reply is generated it turns the chat into a summary written from
one character's point of view (the "memory") and stores it in the host
variable `processed_memory` for prompts to read. To avoid calling the
summarising service on every turn, it caches the last memory together with the
chat length it was computed from. It reuses that cached memory while the chat
length stays within one message of that length.

This project models that step in index.js as pure functions over immutable
datatypes and proves what it does:

- `Config`: the settings record, its defaults, and `loadSettings`.
- `History`: the history window `chat.slice(-maxHistoryMessages)`, with
  ECMAScript `slice` modelled exactly, including negative and zero bounds.
  Also the `受方: ` / `攻方: ` line rendering, the `"\n"` join, and a decoder
  that reads the text back.
- `MemoryApi`: the guard of `callMemoryAPI`, the request body it builds, and
  the extraction `data.choices?.[0]?.message?.content || null`. The network
  is a parameter: `None` means `fetch` or `response.json()` threw, and
  `Some(reply)` is the parsed reply.
- `Processor`: `onGenerateBefore` as a transition. It takes the settings, the
  chat and the network outcome. It returns the new settings, the value written
  to `processed_memory`, whether `callMemoryAPI` was invoked, and the request
  that left, if any. `Run` folds the step over a sequence of events.

index.js has a fixed cache threshold of 2 and reads only one reply shape,
`choices[0].message.content`. Every windowed message is rendered, including
blank ones, with no ordinal tag. The memory goes only to a host variable, never
to a stored record. Nothing prevents two steps from overlapping. The model
follows the code in each of these points, except overlap: overlapping steps
are not modelled (see "## Left out").

## Model

| member | source | states |
|---|---|---|
| Wrappers.NonEmpty | index.js:105 | the falsy-to-null idiom on a string: the result is null exactly when the string is empty, and otherwise is the string |
| Config.Defaults | index.js:32-75 | the defaults: enabled, empty URL and key, model `gpt-4o-mini`, a bound of 50 messages, the given prompt, an empty cache and a last processed length of 0 |
| Config.LoadSettings | index.js:77-81 | the defaults are installed under the module's key when that key is absent or holds a falsy value such as `null`; otherwise the registry is unchanged; other extensions' entries are kept, and no key other than the module's is added |
| Config.LoadSettingsIdempotent | index.js:77-81 | loading the settings a second time changes nothing, whatever defaults it carries |
| History.JsSlice | index.js:126 | `slice(start)` returns a suffix of the list; for start ≥ 0 it has length max(len − start, 0), and for start < 0 length min(−start, len) |
| History.Window | index.js:126 | the window is a suffix of the chat, in order; for a bound N ≥ 1 it holds min(N, len) messages; for N = 0 it is the whole chat (`slice(-0)` is `slice(0)`); a negative bound drops the first −N messages |
| History.Render | index.js:127 | a line is the speaker prefix followed by `mes` unchanged; its prefix is `受方: ` exactly when `is_user` is true and `攻方: ` exactly when it is false |
| History.Join | index.js:127 | the `"\n"`-join of a non-empty list of lines begins with the first line; its inverse is stated by History.SplitJoin |
| History.SplitJoin | index.js:127 | splitting the `"\n"`-join of a non-empty list of newline-free lines on `"\n"` gives back exactly those lines, in order |
| History.Format | index.js:126-127 | the history text is empty exactly when the window is empty, and it begins with the first windowed message's line |
| History.FormatCons | index.js:127 | the text of a non-empty window is its first message's line, followed, when more messages remain, by a newline and the text of the rest |
| History.FormatWindow | index.js:126-127 | for any messages, the history text for N ≥ 1 is the text of the last min(N, len) chat messages, and for N = 0 the text of the whole chat |
| History.ParseRender | index.js:127 | a rendered line parses back to the message it came from: the prefix gives `is_user` and the rest is `mes` unchanged |
| History.DecodeFormat | index.js:127 | when no message text contains a newline, reading the history text back (the empty text as the empty window, any other text split on `"\n"` and parsed line by line) recovers exactly the window, message by message and in order; this includes the empty window a bound N ≤ −len produces |
| History.HistoryCoversWindow | index.js:126-127 | when no chat message contains a newline, the history text for N ≥ 1 reads back as exactly the last min(N, len) chat messages in order, and for N = 0 as the whole chat |
| MemoryApi.BuildRequest | index.js:86-101 | no request exactly when the URL or the key is empty; otherwise one request to the URL with the configured model, carrying one `user` message made of the prompt, then `"\n\n历史内容：\n"`, then the history, each unchanged |
| MemoryApi.ExtractContent | index.js:105 | the result is null exactly when `choices`, its first element, that element's `message` or its `content` is missing, or the content is empty; otherwise it is that content, which is never empty |
| MemoryApi.ExtractChatReply | index.js:105 | a standard chat-completion reply carrying text `t` yields `t`, or null when `t` is empty |
| MemoryApi.ExtractFirstChoiceOnly | index.js:105 | choices after the first never affect the result |
| MemoryApi.CallMemoryApi | index.js:84-110 | the request is the guarded request above; no request or a thrown network call gives null; a result is the non-empty extracted content of the reply to that request |
| Processor.CacheHit | index.js:121 | a hit exactly when the cached memory is non-empty and the last processed length is within one of the chat length, on either side |
| Processor.CacheHitSymmetric | index.js:121 | the hit test is symmetric in the sign of the length difference |
| Processor.HistoryText | index.js:126-127 | the text a cache miss sends: for a bound N ≥ 1 the text of the last min(N, len) chat messages, for N = 0 the text of the whole chat |
| Processor.OnGenerateBefore | index.js:113-136 | disabled or empty chat: nothing happens. Cache hit: the cached memory is written and nothing else changes. `callMemoryAPI` is invoked exactly on an enabled, non-empty miss, with the formatted window; a request leaves only when the URL and key are also set. The value written is exactly what that call returns: when it returns content, the cache is set to it and stamped with the chat length; when it returns null (no request, a thrown call, no usable content), nothing is written and the settings are unchanged |
| Processor.RefreshThenHit | index.js:121-135 | after a successful refresh, a following step on a chat of the same length, or one longer or shorter, is a cache hit: no request, same memory written |
| Processor.DefaultsWriteNothing | index.js:113-136 | with the default settings (empty URL, key and cache) a non-empty chat misses the cache and `callMemoryAPI` is invoked, but no request is sent, nothing is written and the settings stay as they are |
| Processor.RunKeepsConfiguration | index.js:130-132 | over any sequence of events only `cachedMemory` and `lastProcessedLength` ever change |
| Processor.RunKeepsCacheNonEmpty | index.js:130-131 | once a memory is cached, no later event empties the cache |
| Processor.RunUnconfiguredIsInert | index.js:86 | with an empty URL or key, no sequence of events changes the settings |

## Left out

- The `fetch` call, `response.json()`, the HTTP headers (including the `Authorization` bearer header) and `console.error` are left out. They are network I/O and logging. Their combined outcome is the `NetworkOutcome` parameter.
- MemoryApi.ExtractContent: the content is modelled as an optional string. In JavaScript a truthy non-string value at `choices[0].message.content` would be returned as is. So would content reached through a `choices` that is an object with a key `"0"` rather than an array. Those JSON shapes are not modelled.
- `saveSettingsDebounced`, `getContext` and `context.setVariable` are host persistence and host-variable plumbing. They appear only as outputs of the step: the new settings and the written value.
- The chat is a parameter. The `chat || context.chat` lookup and a missing (`null`) chat are host plumbing.
- The settings panel, its input handlers and the test button are UI. This includes `parseInt` storing `NaN` as the history bound; `slice(-NaN)` would behave like a bound of 0.
- Event registration at start-up is left out.
- Overlapping runs of `onGenerateBefore` across the `await` of the network call are left out. Each step is atomic and sees a fixed chat.
- A truthy settings entry is assumed to be a complete settings object. `loadSettings` keeps such an entry as it is and never fills in missing default fields, so an entry saved by an older version or edited by hand can lack a field. A missing `lastProcessedLength` makes every step miss the cache, a missing `maxHistoryMessages` sends the whole chat, and a missing `memoryPrompt` sends the text `undefined`. Such partial entries are not modelled.
- The text of the default prompt is opaque configuration. `Config.Defaults` takes it as a parameter.
