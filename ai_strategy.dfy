/**
  The fallback chain: an ordered, non-empty roster of providers tried one at a
  time until the first success (server/services/aiStrategy.ts).
 */
module Strategy {
  import opened Wrappers
  import opened AiService

  const EmptyRosterMessage := "At least one AI service must be provided."
  const ExhaustedMessage := "All configured AI services failed to process the image."

  /** One entry of the invocation log: which roster position was called, with which argument. */
  datatype Call = Call(provider: nat, imageData: string)

  /**
    Reference definition of the chain: the first provider's success wins, a failure
    moves on to the rest, and an exhausted roster is the one aggregate error.
   */
  function Fallback(services: seq<Service>, imageData: string): (r: GuessOutcome)
    decreases |services|
    ensures r.Failure? ==> r == Failure(Error(ExhaustedMessage))
  {
    if |services| == 0 then Failure(Error(ExhaustedMessage))
    else
      match services[0](imageData)
      case Success(result) => Success(result)
      case Failure(_) => Fallback(services[1..], imageData)
  }

  /** When provider k is the first to succeed, the chain returns k's result unchanged. */
  lemma {:induction false} FallbackReturnsFirstSuccess(services: seq<Service>, imageData: string, k: nat)
    requires k < |services| && services[k](imageData).Success?
    requires forall j :: 0 <= j < k ==> services[j](imageData).Failure?
    ensures Fallback(services, imageData) == services[k](imageData)
  {
    if k > 0 {
      assert services[0](imageData).Failure?;
      var rest := services[1..];
      forall j | 0 <= j < k - 1
        ensures rest[j](imageData).Failure?
      {
        assert rest[j] == services[j + 1];
      }
      assert rest[k - 1] == services[k];
      FallbackReturnsFirstSuccess(rest, imageData, k - 1);
    }
  }

  /**
    The chain fails exactly when every provider fails, and then always with the
    exhaustion error: no individual provider's error reaches the caller.
   */
  lemma {:induction false} FallbackFailsIffAllFail(services: seq<Service>, imageData: string)
    ensures Fallback(services, imageData).Failure?
        <==> forall j :: 0 <= j < |services| ==> services[j](imageData).Failure?
    ensures Fallback(services, imageData).Failure?
        ==> Fallback(services, imageData) == Failure(Error(ExhaustedMessage))
  {
    if |services| > 0 {
      var rest := services[1..];
      FallbackFailsIffAllFail(rest, imageData);
      assert forall j :: 0 < j < |services| ==> services[j] == rest[j - 1];
    }
  }

  /** The exhaustion error is the same whichever failures occurred, on whatever roster and image. */
  lemma ExhaustionIsUniform(s1: seq<Service>, image1: string, s2: seq<Service>, image2: string)
    requires forall j :: 0 <= j < |s1| ==> s1[j](image1).Failure?
    requires forall j :: 0 <= j < |s2| ==> s2[j](image2).Failure?
    ensures Fallback(s1, image1) == Fallback(s2, image2) == Failure(Error(ExhaustedMessage))
  {
    FallbackFailsIffAllFail(s1, image1);
    FallbackFailsIffAllFail(s2, image2);
  }

  /** A success of the chain is always the success of some provider on the same image. */
  lemma {:induction false} FallbackSuccessComesFromRoster(services: seq<Service>, imageData: string)
    requires Fallback(services, imageData).Success?
    ensures exists k :: 0 <= k < |services| && services[k](imageData) == Fallback(services, imageData)
  {
    if services[0](imageData).Failure? {
      var rest := services[1..];
      FallbackSuccessComesFromRoster(rest, imageData);
      var k :| 0 <= k < |rest| && rest[k](imageData) == Fallback(rest, imageData);
      assert services[k + 1] == rest[k];
    } else {
      assert services[0](imageData) == Fallback(services, imageData);
    }
  }

  class AiStrategy {
    /** The roster, in priority order; assigned once and never changed. */
    const services: seq<Service>

    /** The constructor proper, for a roster known to be non-empty. */
    constructor (services: seq<Service>)
      requires |services| > 0
      ensures this.services == services
    {
      this.services := services;
    }

    /** Construction as the source performs it: an empty roster throws and yields no strategy. */
    static method Create(services: seq<Service>) returns (r: Result<AiStrategy, Thrown>)
      ensures r.Failure? <==> |services| == 0
      ensures r.Failure? ==> r.error == Error(EmptyRosterMessage)
      ensures r.Success? ==> fresh(r.value) && r.value.services == services
    {
      if |services| == 0 {
        return Failure(Error(EmptyRosterMessage));
      }
      var strategy := new AiStrategy(services);
      return Success(strategy);
    }

    /**
      Tries the providers in roster order with the unmodified image. `log` records
      every call made: position j is the call to provider j, with `imageData`.
     */
    method GuessImage(imageData: string) returns (r: GuessOutcome, ghost log: seq<Call>)
      ensures r == Fallback(services, imageData)
      ensures |log| <= |services|
      ensures forall j :: 0 <= j < |log| ==> log[j] == Call(j, imageData)
      ensures forall j :: 0 <= j < |log| - 1 ==> services[j](imageData).Failure?
      ensures r.Success? ==> |log| > 0 && r == services[|log| - 1](imageData)
      ensures r.Failure? ==> |log| == |services| && r == Failure(Error(ExhaustedMessage))
      ensures r.Failure? ==> forall j :: 0 <= j < |services| ==> services[j](imageData).Failure?
    {
      log := [];
      var i := 0;
      while i < |services|
        invariant 0 <= i <= |services|
        invariant |log| == i
        invariant forall j :: 0 <= j < i ==> log[j] == Call(j, imageData)
        invariant forall j :: 0 <= j < i ==> services[j](imageData).Failure?
        invariant Fallback(services, imageData) == Fallback(services[i..], imageData)
      {
        var outcome := services[i](imageData);
        log := log + [Call(i, imageData)];
        if outcome.Success? {
          r := outcome;
          return;
        }
        assert services[i..][1..] == services[i + 1..];
        i := i + 1;
      }
      r := Failure(Error(ExhaustedMessage));
    }
  }

  /** Two providers, the first failing and the second answering "a cat": the second's result wins. */
  lemma FailThenCatScenario(imageData: string)
    ensures Fallback([_ => Failure(Error("down")), _ => Success(GuessResult("a cat", 1.0))], imageData)
         == Success(GuessResult("a cat", 1.0))
  {
    var services: seq<Service> := [_ => Failure(Error("down")), _ => Success(GuessResult("a cat", 1.0))];
    FallbackReturnsFirstSuccess(services, imageData, 1);
  }
}
