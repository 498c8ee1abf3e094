/** The story generator's page: the images picked so far, the chosen story
    type and context, the suggestions received, and whether a request is in
    flight, an error is shown and which step is on screen. The request to
    the service is asynchronous; its two halves are `BeginGenerate` (up to
    the request) and `FinishGenerate` (from the reply on). */
module Page {
  import opened StoryTypes
  import Uploader

  datatype Step = Upload | Results

  /** The fewest images a story is generated from. */
  const MinImages := 2

  const TooFewMessage := "Please upload at least 2 images to create a story"
  const FailedMessage := "Failed to generate stories"
  const FallbackMessage := "Something went wrong"

  /** What the request to the service comes to: the decoded reply of a
      response (whether its status was ok, its `stories` and its `error`
      field), or what the fetch or the decoding threw. */
  datatype ServerReply =
    | Reply(ok: bool, stories: seq<StorySuggestion>, error: Option<string>)
    | Threw(thrown: Thrown)

  /** The images as they travel: only their payload and type, in order. */
  function Payloads(images: seq<UploadedImage>): (payloads: seq<ImagePayload>)
    ensures |payloads| == |images|
    ensures forall i :: 0 <= i < |images| ==>
      payloads[i].base64 == images[i].base64 && payloads[i].mimeType == images[i].mimeType
  {
    seq(|images|, i requires 0 <= i < |images| => ImagePayload(images[i].base64, images[i].mimeType))
  }

  /** The context sent: the user's own when there is one, otherwise a
      default naming the story type. Never empty. */
  function ContextToSend(context: string, storyType: StoryType): (sent: string)
    ensures sent != ""
    ensures context != "" ==> sent == context
    ensures context == "" ==> sent == "Create an engaging " + storyType.Value() + " story for social media"
  {
    if context != "" then context else "Create an engaging " + storyType.Value() + " story for social media"
  }

  /** The request body the page sends. */
  function RequestFor(images: seq<UploadedImage>, context: string, storyType: StoryType): (request: StoryRequest)
    ensures request.images == Payloads(images)
    ensures request.context == ContextToSend(context, storyType) && request.storyType == storyType.Value()
    ensures request.context != "" && request.storyType != ""
  {
    StoryRequest(Payloads(images), ContextToSend(context, storyType), storyType.Value())
  }

  /** What a reply comes to: the suggestions of an ok response, or the
      message to show. A failed response shows the service's error, or a
      generic text when it gave none; a thrown `Error` shows its message and
      anything else thrown a fallback text. */
  function Outcome(reply: ServerReply): (r: Result<seq<StorySuggestion>, string>)
    ensures r.Ok? <==> reply.Reply? && reply.ok
    ensures r.Ok? ==> r.value == reply.stories
    ensures reply.Reply? && !reply.ok ==> r.error != ""
    ensures reply.Reply? && !reply.ok && reply.error.Some? && reply.error.value != "" ==>
      r.error == reply.error.value
    ensures reply.Reply? && !reply.ok && (reply.error.None? || reply.error.value == "") ==>
      r.error == FailedMessage
    ensures reply.Threw? ==> r.error == if reply.thrown.ErrorValue? then reply.thrown.message else FallbackMessage
  {
    match reply
    case Reply(ok, stories, error) =>
      if ok then Ok(stories)
      else if error.Some? && error.value != "" then Err(error.value)
      else Err(FailedMessage)
    case Threw(ErrorValue(message)) => Err(message)
    case Threw(OtherValue) => Err(FallbackMessage)
  }

  class Home {
    var images: seq<UploadedImage>
    var storyType: StoryType
    var context: string
    var stories: seq<StorySuggestion>
    var loading: bool
    var error: Option<string>
    var step: Step

    /** The uploader is used with its default cap, so the page never holds
        more images than that. */
    ghost predicate Valid()
      reads this
    {
      |images| <= Uploader.DefaultMaxImages
    }

    /** The page as first shown: no images, a trip story, no context. */
    constructor()
      ensures Valid()
      ensures images == [] && storyType == Trip && context == "" && stories == []
      ensures !loading && error == None && step == Upload
    {
      images := [];
      storyType := Trip;
      context := "";
      stories := [];
      loading := false;
      error := None;
      step := Upload;
    }

    /** The generate button is disabled while a request is in flight or
        while fewer than two images are there. */
    function GenerateDisabled(): (disabled: bool)
      reads this
      ensures disabled <==> loading || |images| < MinImages
    {
      loading || |images| < MinImages
    }

    /** Takes a batch of files through the uploader with its default cap. */
    method AddFiles(files: seq<SourceFile>, minted: seq<Uploader.Minted>)
      requires Valid()
      requires |minted| == |files|
      modifies this
      ensures Valid()
      ensures var take := Uploader.Min(|files|, Uploader.DefaultMaxImages - |old(images)|);
        images == old(images) + Uploader.Accepted(files[..take], minted[..take])
      ensures storyType == old(storyType) && context == old(context) && stories == old(stories)
      ensures loading == old(loading) && error == old(error) && step == old(step)
    {
      images := Uploader.HandleFiles(images, files, minted, Uploader.DefaultMaxImages);
    }

    /** Removes the images with the given id. */
    method RemoveImage(id: string)
      requires Valid()
      modifies this
      ensures Valid()
      ensures images == Uploader.RemoveImage(old(images), id)
      ensures storyType == old(storyType) && context == old(context) && stories == old(stories)
      ensures loading == old(loading) && error == old(error) && step == old(step)
    {
      images := Uploader.RemoveImage(images, id);
    }

    /** Moves one image; a target outside the list leaves the list alone. */
    method MoveImage(fromIndex: int, toIndex: int)
      requires Valid()
      requires 0 <= fromIndex < |images|
      modifies this
      ensures Valid()
      ensures toIndex < 0 || toIndex >= |old(images)| ==> images == old(images)
      ensures 0 <= toIndex < |old(images)| ==> Uploader.IsMove(old(images), images, fromIndex, toIndex)
      ensures storyType == old(storyType) && context == old(context) && stories == old(stories)
      ensures loading == old(loading) && error == old(error) && step == old(step)
    {
      var moved := Uploader.MoveImage(images, fromIndex, toIndex);
      if moved.Some? {
        images := moved.value;
      }
    }

    method SelectStoryType(t: StoryType)
      modifies this
      ensures storyType == t
      ensures images == old(images) && context == old(context) && stories == old(stories)
      ensures loading == old(loading) && error == old(error) && step == old(step)
    {
      storyType := t;
    }

    method SetContext(c: string)
      modifies this
      ensures context == c
      ensures images == old(images) && storyType == old(storyType) && stories == old(stories)
      ensures loading == old(loading) && error == old(error) && step == old(step)
    {
      context := c;
    }

    /** The first half of a generate click: with fewer than two images it
        only shows the error and sends nothing, leaving `loading` alone;
        otherwise it marks the request in flight, clears the error and
        sends the current images, context and story type. */
    method BeginGenerate() returns (sent: Option<StoryRequest>)
      modifies this
      ensures sent.None? <==> |images| < MinImages
      ensures sent.None? ==> error == Some(TooFewMessage) && loading == old(loading)
      ensures sent.Some? ==> sent.value == RequestFor(images, context, storyType) && loading && error == None
      ensures images == old(images) && storyType == old(storyType) && context == old(context)
      ensures stories == old(stories) && step == old(step)
    {
      if |images| < MinImages {
        error := Some(TooFewMessage);
        return None;
      }
      loading := true;
      error := None;
      sent := Some(RequestFor(images, context, storyType));
    }

    /** The second half: an ok reply shows its suggestions on the results
        step; any failure shows its message and stays on the current step.
        The request is no longer in flight either way. */
    method FinishGenerate(reply: ServerReply)
      modifies this
      ensures !loading
      ensures Outcome(reply).Ok? ==>
        stories == Outcome(reply).value && step == Results && error == old(error)
      ensures Outcome(reply).Err? ==>
        error == Some(Outcome(reply).error) && stories == old(stories) && step == old(step)
      ensures images == old(images) && storyType == old(storyType) && context == old(context)
    {
      var outcome := Outcome(reply);
      if outcome.Ok? {
        stories := outcome.value;
        step := Results;
      } else {
        error := Some(outcome.error);
      }
      loading := false;
    }

    /** A whole generate click, when the reply to a request is `reply`. */
    method HandleGenerate(reply: ServerReply) returns (sent: Option<StoryRequest>)
      modifies this
      ensures sent.None? <==> |images| < MinImages
      ensures sent.None? ==>
        error == Some(TooFewMessage) && loading == old(loading) && stories == old(stories) && step == old(step)
      ensures sent.Some? ==> sent.value == RequestFor(images, context, storyType) && !loading
      ensures sent.Some? && Outcome(reply).Ok? ==>
        stories == Outcome(reply).value && step == Results && error == None
      ensures sent.Some? && Outcome(reply).Err? ==>
        error == Some(Outcome(reply).error) && stories == old(stories) && step == old(step)
      ensures images == old(images) && storyType == old(storyType) && context == old(context)
    {
      sent := BeginGenerate();
      if sent.Some? {
        FinishGenerate(reply);
      }
    }

    /** Back to the upload step: the suggestions and the error are cleared,
        the images, context and story type kept. */
    method HandleReset()
      modifies this
      ensures step == Upload && stories == [] && error == None
      ensures images == old(images) && storyType == old(storyType) && context == old(context)
      ensures loading == old(loading)
    {
      step := Upload;
      stories := [];
      error := None;
    }
  }
}
