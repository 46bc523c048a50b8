/**
  The OpenAI adapter (server/services/openaiService.ts): the OpenAI client with its
  default endpoint.
 */
module OpenAI {
  import opened Wrappers
  import opened AiService
  import opened ChatCompletions

  const KeyMissingMessage := "OPENAI_API_KEY is not set in environment variables."
  const NoTextMessage := "Fallback AI (OpenAI) returned no text."
  const ModelName := "gpt-4o"

  /** A configured adapter; its client is fixed at construction. */
  datatype OpenAIService = OpenAIService(client: ClientOptions)
  {
    /** The one request sent for an image; no sampling parameters are given. */
    function Request(imageData: string): (r: ChatRequest)
      ensures r.model == ModelName && r.sampling == None
      ensures |r.messages| == 1 && ImageUrls(r.messages) == [imageData]
    {
      VisionRequest(ModelName, imageData, None)
    }

    /**
      One call to the endpoint with this client: a rejection is re-thrown,
      absent or empty first-choice content fails, other content is the guess.
     */
    function GuessImage(imageData: string, api: ChatApi): (r: GuessOutcome)
      ensures var reply := api(client, Request(imageData));
        && (reply.Threw? ==> r == Failure(reply.error))
        && (r.Success? <==> reply.Completed? && |reply.completion.choices| > 0
                             && Truthy(reply.completion.choices[0].content))
        && (r.Success? ==> r.value == GuessResult(reply.completion.choices[0].content.value, PlaceholderConfidence))
        && (reply.Completed? && |reply.completion.choices| > 0 && r.Failure? ==> r.error == Error(NoTextMessage))
    {
      ReplyToOutcome(api(client, Request(imageData)), NoTextMessage)
    }
  }

  /** The constructor: the key read from the environment must be set and non-empty. */
  function New(env: Option<string>): (r: Result<OpenAIService, Thrown>)
    ensures r.Failure? <==> !Truthy(env)
    ensures r.Failure? ==> r.error == Error(KeyMissingMessage)
    ensures r.Success? ==> r.value.client == ClientOptions(env.value, None)
  {
    match RequireKey(env, KeyMissingMessage)
    case Failure(e) => Failure(e)
    case Success(key) => Success(OpenAIService(ClientOptions(key, None)))
  }

  /**
    The adapter seen through the provider capability, bound to an endpoint:
    it keeps the providers' promise of a non-empty guess with the placeholder confidence.
   */
  function AsService(svc: OpenAIService, api: ChatApi): (s: Service)
    ensures KeepsGuessPolicy(s)
  {
    imageData => svc.GuessImage(imageData, api)
  }
}
