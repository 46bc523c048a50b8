/**
  The InternVL adapter (server/services/internvlService.ts): an OpenAI-compatible
  client pointed at the InternVL endpoint.
 */
module InternVL {
  import opened Wrappers
  import opened AiService
  import opened ChatCompletions

  const KeyMissingMessage := "INTERNVL_API_KEY is not set in environment variables."
  const NoTextMessage := "InternVL API returned no text."
  const BaseUrl := "https://chat.intern-ai.org.cn/api/v1/"
  const ModelName := "internvl2.5-latest"
  const Parameters := Sampling(0.8, 0.9, 100)

  /** A configured adapter; its client is fixed at construction. */
  datatype InternVLService = InternVLService(client: ClientOptions)
  {
    /** The one request sent for an image. */
    function Request(imageData: string): (r: ChatRequest)
      ensures r.model == ModelName && r.sampling == Some(Parameters)
      ensures |r.messages| == 1 && ImageUrls(r.messages) == [imageData]
    {
      VisionRequest(ModelName, imageData, Some(Parameters))
    }

    /**
      One call to the endpoint with this client: a rejection is re-thrown,
      absent or empty first-choice content fails, other content is the guess.
     */
    function GuessImage(imageData: string, api: ChatApi): (r: GuessOutcome)
      ensures var reply := api(client, Request(imageData));
        && (reply.Threw? ==> r == Failure(reply.error))
        && (r.Success? <==> reply.Completed? && |reply.completion.choices| > 0
                             && Truthy(reply.completion.choices[0].content))
        && (r.Success? ==> r.value == GuessResult(reply.completion.choices[0].content.value, PlaceholderConfidence))
        && (reply.Completed? && |reply.completion.choices| > 0 && r.Failure? ==> r.error == Error(NoTextMessage))
    {
      ReplyToOutcome(api(client, Request(imageData)), NoTextMessage)
    }
  }

  /**
    The constructor: the key read from the environment must be set and non-empty;
    the client then always uses the InternVL base URL.
   */
  function New(env: Option<string>): (r: Result<InternVLService, Thrown>)
    ensures r.Failure? <==> !Truthy(env)
    ensures r.Failure? ==> r.error == Error(KeyMissingMessage)
    ensures r.Success? ==> r.value.client == ClientOptions(env.value, Some(BaseUrl))
  {
    match RequireKey(env, KeyMissingMessage)
    case Failure(e) => Failure(e)
    case Success(key) => Success(InternVLService(ClientOptions(key, Some(BaseUrl))))
  }

  /**
    The adapter seen through the provider capability, bound to an endpoint:
    it keeps the providers' promise of a non-empty guess with the placeholder confidence.
   */
  function AsService(svc: InternVLService, api: ChatApi): (s: Service)
    ensures KeepsGuessPolicy(s)
  {
    imageData => svc.GuessImage(imageData, api)
  }
}
