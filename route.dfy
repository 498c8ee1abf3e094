/** The story-generation service route: it checks the request body in a
    fixed order (some images, at most ten, a configured model key), fills in
    defaults for a missing context and story type, calls the generator and
    maps every failure to an error response. The configured key is a
    boolean and the generator is a parameter. */
module Route {
  import opened StoryTypes

  const MaxImages := 10

  const NoImagesMessage := "At least one image is required"
  const TooManyMessage := "Maximum 10 images allowed"
  const NoKeyMessage := "GOOGLE_GEMINI_API_KEY is not configured. Add it to your .env file."
  const FailureMessage := "Failed to generate stories"

  const DefaultContext := "Create an engaging social media story"
  const DefaultStoryType := "lifestyle"

  /** The decoded request body. A field the body leaves out is `None`;
      `images` is an array whenever it is there. */
  datatype Body = Body(
    images: Option<seq<ImagePayload>>,
    context: Option<string>,
    storyType: Option<string>)

  datatype Payload = Stories(stories: seq<StorySuggestion>) | ErrorMessage(error: string)

  datatype Response = Response(status: nat, payload: Payload)

  /** The response of the first check the request fails, or `None` when it
      passes all three. */
  function Validate(images: Option<seq<ImagePayload>>, keyConfigured: bool): (rejection: Option<Response>)
    ensures rejection.None? <==> images.Some? && 1 <= |images.value| <= MaxImages && keyConfigured
    ensures images.None? || images.value == [] ==>
      rejection == Some(Response(400, ErrorMessage(NoImagesMessage)))
    ensures images.Some? && |images.value| > MaxImages ==>
      rejection == Some(Response(400, ErrorMessage(TooManyMessage)))
    ensures images.Some? && 1 <= |images.value| <= MaxImages && !keyConfigured ==>
      rejection == Some(Response(500, ErrorMessage(NoKeyMessage)))
  {
    if images.None? || |images.value| == 0 then Some(Response(400, ErrorMessage(NoImagesMessage)))
    else if |images.value| > MaxImages then Some(Response(400, ErrorMessage(TooManyMessage)))
    else if !keyConfigured then Some(Response(500, ErrorMessage(NoKeyMessage)))
    else None
  }

  /** `value || fallback` for an optional string: the empty string and a
      missing value are falsy. */
  function OrDefault(value: Option<string>, fallback: string): (s: string)
    ensures value.Some? && value.value != "" ==> s == value.value
    ensures value.None? || value.value == "" ==> s == fallback
  {
    if value.Some? && value.value != "" then value.value else fallback
  }

  /** The generator's request: the images as given, the context and the
      story type with their defaults filled in. */
  function WithDefaults(images: seq<ImagePayload>, body: Body): (request: StoryRequest)
    ensures request.images == images
    ensures request.context != "" && request.storyType != ""
    ensures request.context == OrDefault(body.context, DefaultContext)
    ensures request.storyType == OrDefault(body.storyType, DefaultStoryType)
  {
    StoryRequest(images, OrDefault(body.context, DefaultContext), OrDefault(body.storyType, DefaultStoryType))
  }

  /** Defaults never override a value that is there: a request that already
      carries a context and a story type passes through unchanged. */
  lemma DefaultsKeepGivenValues(request: StoryRequest)
    requires request.context != "" && request.storyType != ""
    ensures WithDefaults(request.images, Body(Some(request.images), Some(request.context), Some(request.storyType))) == request
  {
  }

  /** Filling in defaults twice is filling them in once. */
  lemma DefaultsIdempotent(images: seq<ImagePayload>, body: Body)
    ensures var r := WithDefaults(images, body);
      WithDefaults(images, Body(body.images, Some(r.context), Some(r.storyType))) == r
  {
  }

  /** The message of a caught value: an `Error`'s own message, or the
      generic failure text for anything else. */
  function MessageOf(thrown: Thrown): (message: string)
    ensures thrown.ErrorValue? ==> message == thrown.message
    ensures thrown.OtherValue? ==> message == FailureMessage
  {
    match thrown
    case ErrorValue(m) => m
    case OtherValue => FailureMessage
  }

  /** The route. `body` is the decoded body, or what decoding threw;
      `generate` is the story generator, returning the suggestions or what
      it threw. */
  function Post(
    body: Result<Body, Thrown>,
    keyConfigured: bool,
    generate: StoryRequest -> Result<seq<StorySuggestion>, Thrown>
  ): (response: Response)
    ensures response.status == 200 || response.status == 400 || response.status == 500
    ensures body.Err? ==> response == Response(500, ErrorMessage(MessageOf(body.error)))
    ensures body.Ok? && Validate(body.value.images, keyConfigured).Some? ==>
      response == Validate(body.value.images, keyConfigured).value
    ensures response.status == 200 <==>
      && body.Ok? && Validate(body.value.images, keyConfigured).None?
      && generate(WithDefaults(body.value.images.value, body.value)).Ok?
    ensures response.status == 200 ==>
      response.payload == Stories(generate(WithDefaults(body.value.images.value, body.value)).value)
    ensures response.payload.Stories? <==> response.status == 200
    ensures (body.Ok? && Validate(body.value.images, keyConfigured).None?
             && generate(WithDefaults(body.value.images.value, body.value)).Err?) ==>
      response == Response(500, ErrorMessage(MessageOf(generate(WithDefaults(body.value.images.value, body.value)).error)))
  {
    match body
    case Err(thrown) => Response(500, ErrorMessage(MessageOf(thrown)))
    case Ok(b) =>
      match Validate(b.images, keyConfigured)
      case Some(rejection) => rejection
      case None =>
        match generate(WithDefaults(b.images.value, b))
        case Ok(stories) => Response(200, Stories(stories))
        case Err(thrown) => Response(500, ErrorMessage(MessageOf(thrown)))
  }

  /** The generator is consulted only for a request with one to ten images
      and a configured key: for any other request, every generator gives
      the same response. */
  lemma GeneratorOnlyForValidRequests(
    body: Body,
    keyConfigured: bool,
    g1: StoryRequest -> Result<seq<StorySuggestion>, Thrown>,
    g2: StoryRequest -> Result<seq<StorySuggestion>, Thrown>)
    requires !(body.images.Some? && 1 <= |body.images.value| <= MaxImages && keyConfigured)
    ensures Post(Ok(body), keyConfigured, g1) == Post(Ok(body), keyConfigured, g2)
  {
  }

  /** The checks run in order: an empty request is reported as empty even
      when the key is missing, and an oversized one as oversized. */
  lemma CountChecksComeFirst(body: Body, g: StoryRequest -> Result<seq<StorySuggestion>, Thrown>)
    requires body.images.None? || |body.images.value| == 0 || |body.images.value| > MaxImages
    ensures Post(Ok(body), false, g).status == 400
    ensures Post(Ok(body), false, g) == Post(Ok(body), true, g)
  {
  }
}
