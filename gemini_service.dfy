/**
  The Gemini adapter (server/services/geminiService.ts). Besides the key check and
  the text-to-result rule it splits the image's `data:` URL (the form of section 3
  of RFC 2397) into a payload and a media type, but only in two narrow ways:
  it strips the PNG header alone, and it reads the media type with a lazy match.
 */
module Gemini {
  import opened Wrappers
  import opened AiService

  const KeyMissingMessage := "GEMINI_API_KEY is not set in environment variables."
  const NoTextMessage := "Gemini API returned no text."
  const ModelName := "gemini-pro-vision"

  /** The one header the payload extraction removes. */
  const PngHeader := "data:image/png;base64,"
  const DataScheme := "data:"
  const Base64Marker := ";base64,"
  /** The media type used when the image is not recognised as a data URL. */
  const DefaultMimeType := "image/png"

  datatype InlineData = InlineData(data: string, mimeType: string)

  datatype ContentRequest = ContentRequest(model: string, prompt: string, image: InlineData)

  /** What generating content gives: the response text (possibly absent), or a rejection. */
  datatype Reply = Threw(error: Thrown) | Text(text: Option<string>)

  /** The remote model, called with the API key and the request. */
  type Api = (string, ContentRequest) -> Reply

  /**
    The payload: the image data without a leading PNG header. Any other input,
    a data URL of another media type included, is passed on whole.
   */
  function Payload(imageData: string): (r: string)
    ensures PngHeader <= imageData ==> PngHeader + r == imageData
    ensures !(PngHeader <= imageData) ==> r == imageData
  {
    if PngHeader <= imageData then imageData[|PngHeader|..] else imageData
  }

  /** The characters a regular-expression `.` does not match. */
  predicate LineTerminator(c: char)
  {
    c == '\n' || c == '\r' || c == '\U{2028}' || c == '\U{2029}'
  }

  /**
    The lazy scan behind the media-type match: the first position from `i` on where
    the base64 marker starts, provided no line terminator comes before it.
   */
  function MarkerFrom(s: string, i: nat): (r: Option<nat>)
    requires i <= |s|
    decreases |s| - i
    ensures r.Some? ==> i <= r.value <= |s| && Base64Marker <= s[r.value..]
    ensures r.Some? ==> forall k :: i <= k < r.value ==> !LineTerminator(s[k]) && !(Base64Marker <= s[k..])
    ensures r.None? ==> forall j :: i <= j <= |s| && Base64Marker <= s[j..] ==>
                          exists k :: i <= k < j && LineTerminator(s[k])
  {
    if Base64Marker <= s[i..] then Some(i)
    else if i < |s| && !LineTerminator(s[i]) then MarkerFrom(s, i + 1)
    else None
  }

  /**
    The media type as the lazy match reads it: the shortest text after a leading
    `data:` that is followed by the base64 marker and holds no line terminator.
   */
  function MimeMatch(imageData: string): (r: Option<string>)
    ensures r.Some? ==> DataScheme + r.value + Base64Marker <= imageData
    ensures r.Some? ==> forall k :: 0 <= k < |r.value| ==> !LineTerminator(r.value[k])
    ensures r.Some? ==> forall k :: |DataScheme| <= k < |DataScheme| + |r.value| ==> !(Base64Marker <= imageData[k..])
    ensures r.None? && DataScheme <= imageData ==>
      forall j :: |DataScheme| <= j <= |imageData| && Base64Marker <= imageData[j..] ==>
        exists k :: |DataScheme| <= k < j && LineTerminator(imageData[k])
  {
    if DataScheme <= imageData then
      match MarkerFrom(imageData, |DataScheme|)
      case Some(j) =>
        var m := imageData[|DataScheme|..j];
        assert imageData[..j] == DataScheme + m;
        assert imageData[..j + |Base64Marker|] == DataScheme + m + Base64Marker by {
          assert imageData[j..][..|Base64Marker|] == Base64Marker;
        }
        Some(m)
      case None => None
    else None
  }

  /** The media type sent: the matched one, or PNG when there is no match. */
  function MimeType(imageData: string): (r: string)
    ensures MimeMatch(imageData).Some? ==> r == MimeMatch(imageData).value
    ensures MimeMatch(imageData).None? ==> r == DefaultMimeType
  {
    match MimeMatch(imageData)
    case Some(m) => m
    case None => DefaultMimeType
  }

  /**
    The content request sent for an image: the vision model, the prompt, and the
    image as payload and media type.
   */
  function Request(imageData: string): (r: ContentRequest)
    ensures r.model == ModelName && r.prompt == Prompt
    ensures r.image.data == Payload(imageData) && r.image.mimeType == MimeType(imageData)
    ensures PngHeader <= imageData ==> PngHeader + r.image.data == imageData
  {
    ContentRequest(ModelName, Prompt, InlineData(Payload(imageData), MimeType(imageData)))
  }

  /** The media types this model's data-URL lemmas speak of: no `;` and no line terminator. */
  predicate PlainMediaType(m: string)
  {
    forall k :: 0 <= k < |m| ==> m[k] != ';' && !LineTerminator(m[k])
  }

  /** For a data URL with a plain media type, the lazy match reads exactly that media type back. */
  lemma DataUrlMimeType(m: string, payload: string)
    requires PlainMediaType(m)
    ensures MimeType(DataScheme + m + Base64Marker + payload) == m
  {
    var s := DataScheme + m + Base64Marker + payload;
    var marker := |DataScheme| + |m|;
    assert s[..|DataScheme|] == DataScheme;
    assert s[marker..][..|Base64Marker|] == Base64Marker;
    forall k | |DataScheme| <= k < marker
      ensures s[k] == m[k - |DataScheme|]
    {
    }
    var r := MarkerFrom(s, |DataScheme|);
    assert r.Some?;
    assert s[r.value..][0] == ';';
    assert r.value == marker;
    assert s[|DataScheme|..marker] == m;
  }

  /**
    For a data URL with a plain media type, the payload loses its header only when
    the media type is `image/png`; any other data URL is sent whole.
   */
  lemma DataUrlPayload(m: string, payload: string)
    requires PlainMediaType(m)
    ensures Payload(DataScheme + m + Base64Marker + payload)
         == if m == "image/png" then payload else DataScheme + m + Base64Marker + payload
  {
    var s := DataScheme + m + Base64Marker + payload;
    if m == "image/png" {
      assert s == PngHeader + payload;
      assert s[|PngHeader|..] == payload;
    } else {
      var marker := |DataScheme| + |m|;
      var k: nat;
      if |m| < 9 {
        k := marker;
        assert s[k] == ';';
      } else if |m| > 9 {
        k := 14;
        assert s[k] == m[9];
      } else {
        var i :| 0 <= i < 9 && m[i] != "image/png"[i];
        k := |DataScheme| + i;
        assert s[k] == m[i];
      }
      assert k < |PngHeader| && k < |s| && s[k] != PngHeader[k];
    }
  }

  /** A well-formed PNG data URL splits into its header and payload, with the PNG media type. */
  lemma PngDataUrlSplits(payload: string)
    ensures Payload(PngHeader + payload) == payload
    ensures PngHeader + Payload(PngHeader + payload) == PngHeader + payload
    ensures MimeType(PngHeader + payload) == "image/png"
  {
    assert DataScheme + "image/png" + Base64Marker + payload == PngHeader + payload;
    DataUrlMimeType("image/png", payload);
    DataUrlPayload("image/png", payload);
  }

  /**
    A data URL of another media type keeps its header in the payload, while the
    media type is still read from it: "data:image/jpeg;base64,xyz" is sent whole,
    labelled "image/jpeg".
   */
  lemma JpegDataUrlKeepsHeader()
    ensures Payload("data:image/jpeg;base64,xyz") == "data:image/jpeg;base64,xyz"
    ensures MimeType("data:image/jpeg;base64,xyz") == "image/jpeg"
  {
    assert DataScheme + "image/jpeg" + Base64Marker + "xyz" == "data:image/jpeg;base64,xyz";
    DataUrlMimeType("image/jpeg", "xyz");
    DataUrlPayload("image/jpeg", "xyz");
  }

  /** An image that does not start with `data:` is sent whole, labelled PNG. */
  lemma NonDataUrlDefaultsToPng(imageData: string)
    requires !(DataScheme <= imageData)
    ensures Payload(imageData) == imageData
    ensures MimeType(imageData) == DefaultMimeType
  {
    assert |imageData| < |DataScheme| || imageData[..|DataScheme|] != DataScheme;
    assert PngHeader[..|DataScheme|] == DataScheme;
  }

  /** A configured adapter: the generative-AI client built from the key. */
  datatype GeminiService = GeminiService(apiKey: string)
  {
    /**
      One call to the model: a rejection is re-thrown as it is, absent or empty
      text fails, other text is the guess with the placeholder confidence.
     */
    function GuessImage(imageData: string, api: Api): (r: GuessOutcome)
      ensures var reply := api(apiKey, Request(imageData));
        && (reply.Threw? ==> r == Failure(reply.error))
        && (r.Success? <==> reply.Text? && Truthy(reply.text))
        && (r.Success? ==> r.value == GuessResult(reply.text.value, PlaceholderConfidence))
        && (reply.Text? && r.Failure? ==> r.error == Error(NoTextMessage))
    {
      match api(apiKey, Request(imageData))
      case Threw(e) => Failure(e)
      case Text(text) => TextToOutcome(text, NoTextMessage)
    }
  }

  /** The constructor: the key read from the environment must be set and non-empty. */
  function New(env: Option<string>): (r: Result<GeminiService, Thrown>)
    ensures r.Failure? <==> !Truthy(env)
    ensures r.Failure? ==> r.error == Error(KeyMissingMessage)
    ensures r.Success? ==> r.value.apiKey == env.value
  {
    match RequireKey(env, KeyMissingMessage)
    case Failure(e) => Failure(e)
    case Success(key) => Success(GeminiService(key))
  }

  /**
    The adapter seen through the provider capability, bound to a model endpoint:
    it keeps the providers' promise of a non-empty guess with the placeholder confidence.
   */
  function AsService(svc: GeminiService, api: Api): (s: Service)
    ensures KeepsGuessPolicy(s)
  {
    imageData => svc.GuessImage(imageData, api)
  }
}
