/**
  The capability every image-guessing provider offers: one operation that takes the
  image string and either resolves with a guess and a confidence or throws.
  Helpers shared by the three provider adapters live here too.
 */
module AiService {
  import opened Wrappers

  /** What a JavaScript `throw` can carry: an `Error` with its message, or any other value. */
  datatype Thrown = Error(message: string) | NonError

  /** The `{ guess, confidence }` object a provider resolves with. */
  datatype GuessResult = GuessResult(guess: string, confidence: real)

  /** Resolving with a result, or rejecting with what was thrown. */
  type GuessOutcome = Result<GuessResult, Thrown>

  /** A provider, seen only through its `guessImage(imageData)` operation. */
  type Service = string -> GuessOutcome

  /** The fixed confidence every adapter reports: a placeholder, not a calibrated probability. */
  const PlaceholderConfidence: real := 1.0

  /** The question every adapter puts next to the image. */
  const Prompt := "What is in this picture?"

  /**
    The promise every adapter keeps as a provider: it never succeeds with an empty
    guess, and a success always carries the placeholder confidence.
   */
  ghost predicate KeepsGuessPolicy(s: Service)
  {
    forall imageData :: s(imageData).Success? ==>
      s(imageData).value.guess != "" && s(imageData).value.confidence == PlaceholderConfidence
  }

  /** JavaScript truthiness of a string that may be absent: absent and "" are falsy. */
  predicate Truthy(s: Option<string>)
  {
    s.Some? && s.value != ""
  }

  /**
    The adapters' common tail: text that is absent or empty makes the call throw
    `noText`; any other text becomes the guess, with the placeholder confidence.
   */
  function TextToOutcome(text: Option<string>, noText: string): (r: GuessOutcome)
    ensures r.Success? <==> Truthy(text)
    ensures r.Success? ==> r.value.guess == text.value && r.value.guess != ""
    ensures r.Success? ==> r.value.confidence == PlaceholderConfidence
    ensures r.Failure? ==> r.error == Error(noText)
  {
    if Truthy(text) then Success(GuessResult(text.value, PlaceholderConfidence))
    else Failure(Error(noText))
  }

  /**
    The adapters' constructor check: an API key read from the environment must be
    set and non-empty, otherwise construction throws `missing`.
   */
  function RequireKey(env: Option<string>, missing: string): (r: Result<string, Thrown>)
    ensures r.Success? <==> Truthy(env)
    ensures r.Success? ==> r.value == env.value && r.value != ""
    ensures r.Failure? ==> r.error == Error(missing)
  {
    if Truthy(env) then Success(env.value) else Failure(Error(missing))
  }
}
