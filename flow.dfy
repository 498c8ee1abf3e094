/** How the pieces fit together: what the page sends is what the route
    accepts and hands on unchanged, the images reach the model in the order
    they were arranged on the page, what the route answers is what the page
    shows, and the three-image trip story comes out as a two-column layout
    with a wide first frame. */
module Flow {
  import opened StoryTypes
  import opened Text
  import Uploader
  import Layout
  import Gemini
  import Route
  import Page

  /** The body the page's request arrives as at the route. */
  function BodyOf(request: StoryRequest): Route.Body
  {
    Route.Body(Some(request.images), Some(request.context), Some(request.storyType))
  }

  /** The reply the page decodes from a route response: the fetch counts a
      2xx status as ok. */
  function ReplyOf(response: Route.Response): Page.ServerReply
  {
    match response.payload
    case Stories(stories) => Page.Reply(200 <= response.status < 300, stories, None)
    case ErrorMessage(message) => Page.Reply(200 <= response.status < 300, [], Some(message))
  }

  /** A request the page sends (two to ten images, the uploader's cap)
      passes the route's checks when the key is configured, and the route's
      own defaults never fire: the generator gets exactly what the page
      sent. Without the key, the configuration error comes back. */
  lemma PageRequestPassesRoute(images: seq<UploadedImage>, context: string, storyType: StoryType)
    requires Page.MinImages <= |images| <= Uploader.DefaultMaxImages
    ensures var request := Page.RequestFor(images, context, storyType);
      && Route.Validate(BodyOf(request).images, true).None?
      && Route.WithDefaults(request.images, BodyOf(request)) == request
      && Route.Validate(BodyOf(request).images, false) == Some(Route.Response(500, Route.ErrorMessage(Route.NoKeyMessage)))
  {
  }

  /** The model gets the page's images in the order they were arranged,
      each with its own payload and type, and then the prompt. */
  lemma UploadOrderReachesModel(images: seq<UploadedImage>, context: string, storyType: StoryType)
    ensures var parts := Gemini.Contents(Page.RequestFor(images, context, storyType));
      && |parts| == |images| + 1
      && (forall i :: 0 <= i < |images| ==> parts[i] == Gemini.InlineData(images[i].base64, images[i].mimeType))
      && parts[|images|] == Gemini.TextPart(Gemini.Prompt(|images|, Page.ContextToSend(context, storyType), storyType.Value()))
  {
  }

  /** Whatever the route answers is what the page shows: the suggestions of
      a 200 response land on the results step, and a refused or failed
      request shows the route's own message. */
  lemma RouteAnswerShownOnPage(
    body: Result<Route.Body, Thrown>,
    keyConfigured: bool,
    generate: StoryRequest -> Result<seq<StorySuggestion>, Thrown>)
    ensures var response := Route.Post(body, keyConfigured, generate);
      && (response.status == 200 ==> Page.Outcome(ReplyOf(response)) == Ok(response.payload.stories))
      && (response.status != 200 && response.payload.error != "" ==>
            Page.Outcome(ReplyOf(response)) == Err(response.payload.error))
    ensures body.Ok? && Route.Validate(body.value.images, keyConfigured).Some? ==>
      Page.Outcome(ReplyOf(Route.Post(body, keyConfigured, generate)))
        == Err(Route.Validate(body.value.images, keyConfigured).value.payload.error)
  {
    var response := Route.Post(body, keyConfigured, generate);
    if body.Ok? && Route.Validate(body.value.images, keyConfigured).Some? {
      assert response.payload.error != "";
    }
  }

  /** Three images, no context, a trip story: the context sent is the trip
      default, the route hands it on, and a three-frame suggestion is laid
      out in two columns with only the first frame spanning both. */
  lemma ThreeImageTrip(images: seq<UploadedImage>, story: StorySuggestion)
    requires |images| == 3 && |story.frames| == 3
    ensures var request := Page.RequestFor(images, "", Trip);
      && request.context == "Create an engaging trip story for social media"
      && Route.Validate(BodyOf(request).images, true).None?
      && Route.WithDefaults(request.images, BodyOf(request)) == request
      && Layout.Columns(|story.frames|) == 2
      && Layout.FrameSpan(|story.frames|, 0) == Layout.Span2
      && Layout.FrameSpan(|story.frames|, 1) == "" && Layout.FrameSpan(|story.frames|, 2) == ""
  {
    PageRequestPassesRoute(images, "", Trip);
  }
}
