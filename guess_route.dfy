/**
  The `/guess` request handler (server/routes/index.ts): validate the image, build
  the InternVL adapter and a one-provider strategy, and map the outcome to a response.
 */
module Routes {
  import opened Wrappers
  import opened AiService
  import Strategy
  import InternVL
  import opened ChatCompletions

  const NoImageMessage := "No image data provided"
  const InternalErrorMessage := "Internal server error"
  const UnknownErrorMessage := "An unknown error occurred"

  /** The JSON bodies the handler sends. */
  datatype Body =
    | GuessBody(guess: string, confidence: real)
    | ErrorBody(error: string)
    | ErrorDetailsBody(error: string, details: string)

  datatype Response = Response(status: nat, body: Body)

  /** The catch block: every thrown value becomes a 500 carrying its message, if it has one. */
  function ErrorResponse(e: Thrown): (r: Response)
    ensures r.status == 500 && r.body.ErrorDetailsBody? && r.body.error == InternalErrorMessage
    ensures e.Error? ==> r.body.details == e.message
    ensures e.NonError? ==> r.body.details == UnknownErrorMessage
  {
    Response(500, ErrorDetailsBody(InternalErrorMessage, if e.Error? then e.message else UnknownErrorMessage))
  }

  /**
    One request. `imageData` is the body's field (absent when missing or `null`),
    `internvlKey` the environment's INTERNVL_API_KEY and `api` the InternVL endpoint.
    `built` counts the providers constructed and `log` the provider calls made.
   */
  method HandleGuess(imageData: Option<string>, internvlKey: Option<string>, api: ChatApi)
    returns (resp: Response, ghost built: nat, ghost log: seq<Strategy.Call>)
    ensures resp.status in {200, 400, 500}
    ensures resp.status == 400 <==> !Truthy(imageData)
    ensures !Truthy(imageData) ==> resp.body == ErrorBody(NoImageMessage) && built == 0 && log == []
    ensures Truthy(imageData) && InternVL.New(internvlKey).Failure? ==>
      && resp == Response(500, ErrorDetailsBody(InternalErrorMessage, InternVL.KeyMissingMessage))
      && built == 0 && log == []
    ensures Truthy(imageData) && InternVL.New(internvlKey).Success? ==>
      var outcome := InternVL.New(internvlKey).value.GuessImage(imageData.value, api);
      && built == 1 && log == [Strategy.Call(0, imageData.value)]
      && (outcome.Success? ==> resp == Response(200, GuessBody(outcome.value.guess, outcome.value.confidence)))
      && (outcome.Failure? ==>
            resp == Response(500, ErrorDetailsBody(InternalErrorMessage, Strategy.ExhaustedMessage)))
  {
    built, log := 0, [];
    if !Truthy(imageData) {
      resp := Response(400, ErrorBody(NoImageMessage));
      return;
    }
    var service := InternVL.New(internvlKey);
    if service.Failure? {
      resp := ErrorResponse(service.error);
      return;
    }
    built := 1;
    var provider := InternVL.AsService(service.value, api);
    var strategy := new Strategy.AiStrategy([provider]);
    var result;
    result, log := strategy.GuessImage(imageData.value);
    if result.Failure? {
      resp := ErrorResponse(result.error);
      return;
    }
    resp := Response(200, GuessBody(result.value.guess, result.value.confidence));
  }

  /**
    An InternVL reply whose first choice is empty is a failure that the chain
    turns into exhaustion, never a 200 with an empty guess.
   */
  lemma EmptyContentIsExhaustion(imageData: string, key: string, api: ChatApi)
    requires imageData != "" && key != ""
    requires api(ClientOptions(key, Some(InternVL.BaseUrl)), InternVL.InternVLService(ClientOptions(key, Some(InternVL.BaseUrl))).Request(imageData))
          == Completed(Completion([Choice(Some(""))]))
    ensures var svc := InternVL.New(Some(key)).value;
      Strategy.Fallback([InternVL.AsService(svc, api)], imageData) == Failure(Error(Strategy.ExhaustedMessage))
  {
  }
}
