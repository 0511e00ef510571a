/**
 * The pure parts of callMemoryAPI (index.js): the configuration guard, the
 * request it would send, and how a reply becomes the memory text. The network
 * call itself is abstracted: its outcome is a parameter.
 */
module MemoryApi {
  import opened Wrappers
  import opened Config

  /** One entry of the request's `messages` array. */
  datatype ChatMessage = ChatMessage(role: string, content: string)

  /** The POST request: target URL and the JSON body's `model` and `messages`. */
  datatype Request = Request(url: string, model: string, messages: seq<ChatMessage>)

  /** The text placed between the prompt and the history in the request. */
  const HistoryHeader: string := "\n\n历史内容：\n"

  /** A parsed JSON reply, reduced to the path `choices[0].message.content`; absent keys are `None`. */
  datatype ReplyMessage = ReplyMessage(content: Option<string>)
  datatype Choice = Choice(message: Option<ReplyMessage>)
  datatype Reply = Reply(choices: Option<seq<Choice>>)

  /**
   * What the network part of a call produced: `None` when `fetch` or
   * `response.json()` threw (the error is caught), otherwise the parsed reply.
   */
  type NetworkOutcome = Option<Reply>

  /** What one call did: the request it issued, if any, and the memory it returned (`None` is `null`). */
  datatype ApiCall = ApiCall(request: Option<Request>, memory: Option<string>)

  /**
   * The request for a history text, or `None` when the URL or the key is empty
   * (the call returns `null` before any request). The request carries one `user`
   * message: the prompt, the header, then the history, each unchanged.
   */
  function BuildRequest(settings: Settings, history: string): (r: Option<Request>)
    ensures r.None? <==> settings.apiUrl == "" || settings.apiKey == ""
    ensures r.Some? ==>
      && r.value.url == settings.apiUrl
      && r.value.model == settings.model
      && |r.value.messages| == 1
      && r.value.messages[0].role == "user"
    ensures r.Some? ==>
      var c := r.value.messages[0].content;
      var p := |settings.memoryPrompt|;
      && |c| == p + |HistoryHeader| + |history|
      && c[..p] == settings.memoryPrompt
      && c[p..p + |HistoryHeader|] == HistoryHeader
      && c[p + |HistoryHeader|..] == history
  {
    if settings.apiUrl == "" || settings.apiKey == "" then None
    else
      var content := settings.memoryPrompt + HistoryHeader + history;
      Some(Request(settings.apiUrl, settings.model, [ChatMessage("user", content)]))
  }

  /**
   * `data.choices?.[0]?.message?.content || null`: the first choice's message
   * content when every link exists and the content is non-empty, else `None`.
   */
  function ExtractContent(reply: Reply): (r: Option<string>)
    ensures r.Some? ==> r.value != ""
    ensures r.None? <==>
      || reply.choices.None?
      || |reply.choices.value| == 0
      || reply.choices.value[0].message.None?
      || reply.choices.value[0].message.value.content.None?
      || reply.choices.value[0].message.value.content.value == ""
    ensures r.Some? ==> r.value == reply.choices.value[0].message.value.content.value
  {
    match reply.choices
    case None => None
    case Some(cs) =>
      if |cs| == 0 then None
      else match cs[0].message
        case None => None
        case Some(m) => match m.content
          case None => None
          case Some(text) => NonEmpty(text)
  }

  /** The reply an OpenAI-compatible chat endpoint sends for one completion `text`. */
  function ChatReply(text: string): Reply {
    Reply(Some([Choice(Some(ReplyMessage(Some(text))))]))
  }

  /** The canonical reply round-trips: extraction returns the completion, and an empty completion is `null`. */
  lemma ExtractChatReply(text: string)
    ensures ExtractContent(ChatReply(text)) == (if text == "" then None else Some(text))
  {
  }

  /** Only the first choice is ever read: any further choices are ignored. */
  lemma ExtractFirstChoiceOnly(c: Choice, rest: seq<Choice>)
    ensures ExtractContent(Reply(Some([c] + rest))) == ExtractContent(Reply(Some([c])))
  {
  }

  /**
   * callMemoryAPI: with an empty URL or key it issues no request and returns
   * `null`; otherwise it issues the request and returns the extracted content,
   * or `null` when the network part threw.
   */
  function CallMemoryApi(settings: Settings, history: string, network: NetworkOutcome): (r: ApiCall)
    ensures r.request == BuildRequest(settings, history)
    ensures r.request.None? ==> r.memory.None?
    ensures network.None? ==> r.memory.None?
    ensures r.memory.Some? ==> r.memory.value != ""
    ensures r.request.Some? && network.Some? ==> r.memory == ExtractContent(network.value)
  {
    var request := BuildRequest(settings, history);
    if request.None? then ApiCall(None, None)
    else match network
      case None => ApiCall(request, None)
      case Some(reply) => ApiCall(request, ExtractContent(reply))
  }
}
