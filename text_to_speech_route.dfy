/** The server half of the speech pipeline: the `POST` handler of
    `/api/text-to-speech`. The handler has no state; it maps the parsed request
    body, the configured provider credential and what the provider did to one
    HTTP response, and records the provider calls it made. */
module TextToSpeechRoute {
  import opened Wrappers

  newtype byte = x: int | 0 <= x < 256

  /** A JSON value other than a string, kept whole so that it can be sent on
      and echoed back as it came. */
  datatype NonString =
    | JNull
    | JBool(b: bool)
    | JNumber(n: real)
    | JArray(items: seq<TextField>)
    | JObject(members: seq<(string, TextField)>)

  /** The value of the `text` member of the request body, as JavaScript sees it
      after `const { text } = await request.json()`. */
  datatype TextField =
    | Absent                 // no such member, or the body is a JSON array, string, number or boolean
    | Str(s: string)         // a JSON string
    | Other(value: NonString)

  /** JavaScript's `!text` is false exactly for these: `undefined`, `null`,
      `false`, `0` and `""` are falsy; every other value is truthy. */
  predicate Truthy(t: TextField) {
    match t
    case Absent => false
    case Str(s) => s != ""
    case Other(v) =>
      match v
      case JNull => false
      case JBool(b) => b
      case JNumber(n) => n != 0.0
      case _ => true
  }

  /** A number in the `text` member is echoed back as that number. */
  lemma NumberTextEchoed(n: real)
    requires n != 0.0
    ensures Post(Json(Other(JNumber(n))), None, FetchFailed).response
         == JsonResponse(200, FallbackJson(Other(JNumber(n))))
    ensures Post(Json(Other(JNumber(0.0))), None, FetchFailed).response.status == 400
  {
  }

  /** What `await request.json()` and the destructuring of its result produce:
      an invalid JSON body and the JSON literal `null` both throw. */
  datatype RequestBody = Malformed | Json(text: TextField)

  /** `process.env.ELEVENLABS_API_KEY`: unset, or a string; the empty string is falsy. */
  predicate KeyConfigured(apiKey: Option<string>) {
    apiKey.Some? && apiKey.value != ""
  }

  /** What the speech provider did with the one request sent to it. `body` is
      `None` when reading the body with `arrayBuffer()` fails. */
  datatype ProviderOutcome =
    | FetchFailed
    | Responded(status: nat, body: Option<seq<byte>>)

  /** `response.ok` as the Fetch standard defines it: a status in 200..299. */
  predicate Ok(status: nat) { 200 <= status <= 299 }

  /** The fixed voice settings sent with every provider call. They are
      constants compared for equality, never computed with. */
  datatype VoiceSettings = VoiceSettings(stability: real, similarityBoost: real, style: real, useSpeakerBoost: bool)

  const Voice := VoiceSettings(0.5, 0.75, 0.0, true)
  const ProviderUrl := "https://api.elevenlabs.io/v1/text-to-speech/21m00Tcm4TlvDq8ikWAM"
  const ModelId := "eleven_monolingual_v1"
  const AudioMpeg := "audio/mpeg"
  const ApplicationJson := "application/json"
  const TextRequired := "Text is required"
  const ProcessingError := "Error occurred during text-to-speech processing"

  /** One request to the provider: where it went, what it asked for and with which credential. */
  datatype ProviderCall = ProviderCall(url: string, accept: string, apiKey: string, text: TextField, modelId: string, voice: VoiceSettings)

  /** The response body: `{error}`, `{fallback: true, text}` or raw audio bytes. */
  datatype Payload =
    | ErrorJson(error: string)
    | FallbackJson(text: TextField)
    | AudioBytes(bytes: seq<byte>)

  /** The HTTP response. `contentLength` is the `Content-Length` header when the
      handler sets it itself (only the audio response does). */
  datatype Response = Response(status: nat, contentType: string, contentLength: Option<string>, payload: Payload)

  /** The response together with the provider calls made while producing it. */
  datatype Exchange = Exchange(response: Response, calls: seq<ProviderCall>)

  function JsonResponse(status: nat, payload: Payload): Response {
    Response(status, ApplicationJson, None, payload)
  }

  /** The `POST` handler. */
  function Post(body: RequestBody, apiKey: Option<string>, provider: ProviderOutcome): (x: Exchange)
    // A body that cannot be parsed ends in the outer catch: 200 and the generic message.
    ensures body.Malformed? ==>
      x.response == JsonResponse(200, FallbackJson(Str(ProcessingError))) && x.calls == []
    // A missing or empty text is the one request error; nothing else is looked at.
    ensures body.Json? && !Truthy(body.text) ==>
      x.response == JsonResponse(400, ErrorJson(TextRequired)) && x.calls == []
    // No credential: fallback with the caller's own text and no provider call.
    ensures body.Json? && Truthy(body.text) && !KeyConfigured(apiKey) ==>
      x.response == JsonResponse(200, FallbackJson(body.text)) && x.calls == []
    // With a credential, exactly one call, carrying that credential, the text and the fixed settings.
    ensures body.Json? && Truthy(body.text) && KeyConfigured(apiKey) ==>
      x.calls == [ProviderCall(ProviderUrl, AudioMpeg, apiKey.value, body.text, ModelId, Voice)]
    // Audio comes back only from a provider that answered ok with a readable body,
    // byte for byte, labelled audio/mpeg and with its exact length.
    ensures x.response.payload.AudioBytes? <==>
      body.Json? && Truthy(body.text) && KeyConfigured(apiKey) &&
      provider.Responded? && Ok(provider.status) && provider.body.Some?
    ensures x.response.payload.AudioBytes? ==>
      && x.response.status == 200
      && x.response.payload.bytes == provider.body.value
      && x.response.contentType == AudioMpeg
      && x.response.contentLength.Some?
      && ParseContentLength(x.response.contentLength.value) == Some(|provider.body.value|)
    // Every provider-side failure collapses to a fallback carrying the original text.
    ensures body.Json? && Truthy(body.text) && KeyConfigured(apiKey) && !x.response.payload.AudioBytes? ==>
      x.response == JsonResponse(200, FallbackJson(body.text))
    // 400 is the only status other than 200, and it means "no text".
    ensures x.response.status == 200 || x.response.status == 400
    ensures x.response.status == 400 <==> body.Json? && !Truthy(body.text)
    ensures |x.calls| <= 1
  {
    match body
    case Malformed =>
      Exchange(JsonResponse(200, FallbackJson(Str(ProcessingError))), [])
    case Json(text) =>
      if !Truthy(text) then
        Exchange(JsonResponse(400, ErrorJson(TextRequired)), [])
      else if !KeyConfigured(apiKey) then
        Exchange(JsonResponse(200, FallbackJson(text)), [])
      else
        var call := ProviderCall(ProviderUrl, AudioMpeg, apiKey.value, text, ModelId, Voice);
        Exchange(ProviderResponse(text, provider), [call])
  }

  /** The inner `try`: turn what the provider did into the response. */
  function ProviderResponse(text: TextField, provider: ProviderOutcome): (r: Response)
    ensures r.payload.AudioBytes? <==> provider.Responded? && Ok(provider.status) && provider.body.Some?
    ensures r.payload.AudioBytes? ==>
      && r.status == 200
      && r.payload.bytes == provider.body.value
      && r.contentType == AudioMpeg
      && r.contentLength.Some?
      && ParseContentLength(r.contentLength.value) == Some(|provider.body.value|)
    ensures !r.payload.AudioBytes? ==> r == JsonResponse(200, FallbackJson(text))
  {
    match provider
    case FetchFailed => JsonResponse(200, FallbackJson(text))
    case Responded(status, body) =>
      if !Ok(status) then JsonResponse(200, FallbackJson(text))
      else if body.None? then JsonResponse(200, FallbackJson(text))
      else
        ContentLengthRoundTrip(|body.value|);
        Response(200, AudioMpeg, Some(DecimalString(|body.value|)), AudioBytes(body.value))
  }

  /** The shape of a response body, without its contents. */
  datatype Shape = ErrorShape | FallbackShape | AudioShape

  function ShapeOf(p: Payload): Shape {
    match p
    case ErrorJson(_) => ErrorShape
    case FallbackJson(_) => FallbackShape
    case AudioBytes(_) => AudioShape
  }

  /** Two provider outcomes that differ at most in the audio they deliver. */
  predicate SameKind(p: ProviderOutcome, q: ProviderOutcome) {
    match p
    case FetchFailed => q.FetchFailed?
    case Responded(s, b) => q.Responded? && Ok(s) == Ok(q.status) && b.Some? == q.body.Some?
  }

  /** Repeating a request against a provider that behaves the same way gives a
      response of the same shape and status, though not necessarily the same audio. */
  lemma SameRequestSameShape(body: RequestBody, apiKey: Option<string>, p: ProviderOutcome, q: ProviderOutcome)
    requires SameKind(p, q)
    ensures ShapeOf(Post(body, apiKey, p).response.payload) == ShapeOf(Post(body, apiKey, q).response.payload)
    ensures Post(body, apiKey, p).response.status == Post(body, apiKey, q).response.status
  {
  }

  /** When no provider call is made, the provider's behaviour cannot matter. */
  lemma NoCallNoInfluence(body: RequestBody, apiKey: Option<string>, p: ProviderOutcome, q: ProviderOutcome)
    requires Post(body, apiKey, p).calls == []
    ensures Post(body, apiKey, p) == Post(body, apiKey, q)
  {
  }

  /** The provider's status never becomes the response status. */
  lemma ProviderStatusNeverLeaks(text: string, apiKey: string, status: nat, audio: Option<seq<byte>>)
    requires text != "" && apiKey != ""
    requires !Ok(status)
    ensures Post(Json(Str(text)), Some(apiKey), Responded(status, audio)).response
         == JsonResponse(200, FallbackJson(Str(text)))
  {
  }

  // ---------------------------------------------------------------------------
  // Content-Length (section 8.6 of RFC 9110: `Content-Length = 1*DIGIT`), which
  // the handler writes with `byteLength.toString()`.

  predicate IsDigit(c: char) { '0' <= c <= '9' }

  function DigitChar(d: nat): (c: char)
    requires d < 10
    ensures IsDigit(c)
  {
    "0123456789"[d]
  }

  function DigitValue(c: char): (d: nat)
    requires IsDigit(c)
    ensures d < 10 && DigitChar(d) == c
  {
    (c as int - '0' as int) as nat
  }

  /** JavaScript's `n.toString()` for a non-negative integer: decimal digits,
      no sign, no leading zero. */
  function DecimalString(n: nat): (s: string)
    ensures |s| >= 1
    ensures forall i :: 0 <= i < |s| ==> IsDigit(s[i])
    ensures |s| > 1 ==> s[0] != '0'
    ensures n < 10 <==> |s| == 1
  {
    if n < 10 then [DigitChar(n)] else DecimalString(n / 10) + [DigitChar(n % 10)]
  }

  /** A `Content-Length` value read back as a number, or `None` when it is not
      one or more decimal digits. */
  function ParseContentLength(s: string): (r: Option<nat>)
    ensures r.Some? <==> |s| >= 1 && forall i :: 0 <= i < |s| ==> IsDigit(s[i])
  {
    if |s| == 0 then None
    else if !IsDigit(s[|s| - 1]) then None
    else if |s| == 1 then Some(DigitValue(s[0]))
    else
      match ParseContentLength(s[..|s| - 1])
      case None => None
      case Some(v) => Some(10 * v + DigitValue(s[|s| - 1]))
  }

  /** The header the handler writes reads back as the exact byte length. */
  lemma {:induction false} ContentLengthRoundTrip(n: nat)
    ensures ParseContentLength(DecimalString(n)) == Some(n)
  {
    var s := DecimalString(n);
    if n >= 10 {
      ContentLengthRoundTrip(n / 10);
      assert s[..|s| - 1] == DecimalString(n / 10);
      assert DigitValue(s[|s| - 1]) == n % 10;
    } else {
      assert DigitValue(s[0]) == n;
    }
  }

  // ---------------------------------------------------------------------------
  // Two end-to-end examples.

  /** No credential configured: the caller's text comes back as a fallback. */
  lemma HazardAheadWithoutKey()
    ensures Post(Json(Str("Hazard ahead")), None, FetchFailed)
         == Exchange(JsonResponse(200, FallbackJson(Str("Hazard ahead"))), [])
  {
  }

  /** An empty text is rejected with 400. */
  lemma EmptyTextRejected(apiKey: Option<string>, provider: ProviderOutcome)
    ensures Post(Json(Str("")), apiKey, provider)
         == Exchange(JsonResponse(400, ErrorJson(TextRequired)), [])
  {
  }
}
