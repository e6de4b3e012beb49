/**
 * What the editor sends to and accepts from the image-generation endpoint:
 * the composed prompt, the JSON values a response body may hold, and how a
 * response settles into a generated image or a failure.
 */
module Generation {
  import opened Base
  import opened Text

  /** The fixed descriptors that follow the selected style name. */
  const QUALITY := " style, ultra detailed, realistic lighting"

  /** The prompt sent to the service; ComposePromptCases says what it is. It is never empty. */
  function ComposePrompt(prompt: string, style: string): (r: string)
    ensures |r| > 0
  {
    if |Trim(prompt)| > 0 then prompt + ", " + style + QUALITY else style + QUALITY
  }

  /**
   * The user's prompt, untrimmed, then ", " and the style clause when the
   * prompt has any non-whitespace character; the style clause alone otherwise.
   */
  lemma ComposePromptCases(prompt: string, style: string)
    ensures Blank(prompt) ==> ComposePrompt(prompt, style) == style + QUALITY
    ensures !Blank(prompt) ==> ComposePrompt(prompt, style) == prompt + ", " + style + QUALITY
  {
    TrimEmptyIffBlank(prompt);
  }

  /** Strings that become equal once the same three pieces are appended were equal. */
  lemma CancelTail(p: string, q: string, a: string, b: string, c: string)
    requires p + a + b + c == q + a + b + c
    ensures p == q
  {
    assert p == (p + a + b + c)[..|p|];
    assert q == (q + a + b + c)[..|q|];
  }

  /**
   * Two non-blank prompts that compose to the same text with the same style
   * are the same prompt: the user's text reaches the service unaltered.
   */
  lemma ComposePromptInjective(p: string, q: string, style: string)
    requires !Blank(p) && !Blank(q)
    requires ComposePrompt(p, style) == ComposePrompt(q, style)
    ensures p == q
  {
    ComposePromptCases(p, style);
    ComposePromptCases(q, style);
    CancelTail(p, q, ", ", style, QUALITY);
  }

  /** A JSON value as `response.json()` parses it. */
  datatype Json =
    | JNull
    | JBool(b: bool)
    | JNumber(n: real)
    | JString(s: string)
    | JArray(items: seq<Json>)
    | JObject(fields: map<string, Json>)

  /** JavaScript truthiness of a parsed JSON value (`NaN` cannot come out of JSON). */
  predicate Truthy(v: Json) {
    match v
    case JNull => false
    case JBool(b) => b
    case JNumber(n) => n != 0.0
    case JString(s) => s != []
    case _ => true
  }

  /**
   * The three ways `fetch` can come back: it rejects (the network failed),
   * it resolves with a non-2xx status and a text body, or it resolves with a
   * 2xx status whose body `response.json()` either parses (Some) or rejects
   * on (None).
   */
  datatype Response = Unreachable | NotOk(text: string) | Ok(body: Option<Json>)

  /** Why a generation attempt failed; every one of them is caught by the same handler. */
  datatype Failure =
    | FetchRejected
    | HttpError(text: string)     // the thrown error carries the response text
    | BodyNotJson
    | NullBody                    // `data.image` on null throws a TypeError
    | NoImage                     // "Backend did not return an image"

  /** The body's `image` field holds a truthy value. */
  predicate HasImage(data: Json) {
    data.JObject? && "image" in data.fields && Truthy(data.fields["image"])
  }

  /**
   * The part of `handleGenerate` after the request is sent: a generated
   * image exactly when the status is 2xx and the JSON body's `image` field is
   * present and truthy, and then that value; the response text on a non-2xx
   * status.
   */
  function Settle(response: Response): (r: Result<Json, Failure>)
    ensures r.Success? <==> response.Ok? && response.body.Some? && HasImage(response.body.value)
    ensures r.Success? ==> Truthy(r.value) && r.value == response.body.value.fields["image"]
    ensures response.NotOk? ==> r == Failure(HttpError(response.text))
  {
    match response
    case Unreachable => Failure(FetchRejected)
    case NotOk(text) => Failure(HttpError(text))
    case Ok(None) => Failure(BodyNotJson)
    case Ok(Some(data)) =>
      if data.JNull? then Failure(NullBody)
      else
        var image := if data.JObject? && "image" in data.fields then Some(data.fields["image"]) else None;
        if image.None? || !Truthy(image.value) then Failure(NoImage)
        else Success(image.value)
  }

  /**
   * Which failure each unsuccessful response settles to: a rejected fetch,
   * an unparsable 2xx body, a `null` body, and a parsed body without a
   * truthy `image`.
   */
  lemma SettleFailures(response: Response)
    ensures response.Unreachable? ==> Settle(response) == Failure(FetchRejected)
    ensures response == Ok(None) ==> Settle(response) == Failure(BodyNotJson)
    ensures response == Ok(Some(JNull)) ==> Settle(response) == Failure(NullBody)
    ensures (response.Ok? && response.body.Some? && !response.body.value.JNull? &&
             !HasImage(response.body.value)) ==> Settle(response) == Failure(NoImage)
  {
  }
}
