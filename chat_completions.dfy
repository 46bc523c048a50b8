/**
  The part of the OpenAI client library that the InternVL and OpenAI adapters use:
  client options, the chat-completion request they build and the reply they read.
  The library call itself stays abstract: it is the `ChatApi` parameter.
 */
module ChatCompletions {
  import opened Wrappers
  import opened AiService

  /**
    What the JavaScript engine throws when an expression reads `message` off the
    missing first element of an empty `choices` array (the wording is the V8 engine's).
   */
  const MissingChoiceMessage := "Cannot read properties of undefined (reading 'message')"

  /** Client options; `baseUrl` is `None` when the library's default endpoint is used. */
  datatype ClientOptions = ClientOptions(apiKey: string, baseUrl: Option<string>)

  datatype ContentPart = TextPart(text: string) | ImageUrlPart(url: string)

  datatype Message = Message(role: string, content: seq<ContentPart>)

  /** Optional sampling parameters of a request. */
  datatype Sampling = Sampling(temperature: real, topP: real, maxTokens: nat)

  datatype ChatRequest = ChatRequest(model: string, messages: seq<Message>, sampling: Option<Sampling>)

  /** One choice of a completion; its message content may be `null`. */
  datatype Choice = Choice(content: Option<string>)

  datatype Completion = Completion(choices: seq<Choice>)

  /** What awaiting `chat.completions.create` gives: a completion, or a rejection. */
  datatype ChatReply = Threw(error: Thrown) | Completed(completion: Completion)

  /** The remote chat-completion endpoint, as the client library exposes it. */
  type ChatApi = (ClientOptions, ChatRequest) -> ChatReply

  /** The image URLs carried by a list of content parts, in order. */
  function PartUrls(parts: seq<ContentPart>): seq<string>
  {
    if |parts| == 0 then []
    else (if parts[0].ImageUrlPart? then [parts[0].url] else []) + PartUrls(parts[1..])
  }

  /** The image URLs carried by all messages of a request, in order. */
  function ImageUrls(messages: seq<Message>): seq<string>
  {
    if |messages| == 0 then [] else PartUrls(messages[0].content) + ImageUrls(messages[1..])
  }

  /**
    The request both chat adapters send: a single user message holding the prompt
    and the image, whose URL is the image data exactly as received.
   */
  function VisionRequest(model: string, imageData: string, sampling: Option<Sampling>): (r: ChatRequest)
    ensures r.model == model && r.sampling == sampling
    ensures |r.messages| == 1 && r.messages[0].role == "user"
    ensures TextPart(Prompt) in r.messages[0].content
    ensures ImageUrls(r.messages) == [imageData]
  {
    var message := Message("user", [TextPart(Prompt), ImageUrlPart(imageData)]);
    assert PartUrls(message.content) == [imageData] by {
      assert message.content[1..] == [ImageUrlPart(imageData)];
      assert PartUrls([ImageUrlPart(imageData)]) == [imageData] + PartUrls([]);
    }
    assert [message][1..] == [];
    ChatRequest(model, [message], sampling)
  }

  /**
    The content the adapters examine: that of the first choice only. An empty
    `choices` array makes the access throw.
   */
  function FirstChoiceContent(completion: Completion): (r: Result<Option<string>, Thrown>)
    ensures |completion.choices| == 0 <==> r.Failure?
    ensures r.Failure? ==> r.error == Error(MissingChoiceMessage)
    ensures r.Success? ==> r.value == completion.choices[0].content
  {
    if |completion.choices| == 0 then Failure(Error(MissingChoiceMessage))
    else Success(completion.choices[0].content)
  }

  /**
    What a chat adapter's `guessImage` makes of the reply: a rejection is re-thrown
    as it is, and otherwise the first choice's content decides, `null` or "" being
    the failure `noText`.
   */
  function ReplyToOutcome(reply: ChatReply, noText: string): (r: GuessOutcome)
    ensures reply.Threw? ==> r == Failure(reply.error)
    ensures reply.Completed? && |reply.completion.choices| == 0 ==> r == Failure(Error(MissingChoiceMessage))
    ensures reply.Completed? && |reply.completion.choices| > 0 ==>
      var content := reply.completion.choices[0].content;
      (r.Success? <==> Truthy(content)) &&
      (r.Success? ==> r.value == GuessResult(content.value, PlaceholderConfidence)) &&
      (r.Failure? ==> r.error == Error(noText))
  {
    match reply
    case Threw(e) => Failure(e)
    case Completed(completion) =>
      match FirstChoiceContent(completion)
      case Failure(e) => Failure(e)
      case Success(content) => TextToOutcome(content, noText)
  }

  /** Only the first choice is examined: completions agreeing on it give the same outcome. */
  lemma OnlyFirstChoiceMatters(c1: Completion, c2: Completion, noText: string)
    requires |c1.choices| > 0 && |c2.choices| > 0 && c1.choices[0] == c2.choices[0]
    ensures ReplyToOutcome(Completed(c1), noText) == ReplyToOutcome(Completed(c2), noText)
  {
  }
}
