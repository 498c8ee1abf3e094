# Omni story generator: a Dafny model

Omni turns a handful of photos into short comic-book-style stories for
social media. On its one page the user:

- uploads up to ten images;
- reorders or removes them;
- picks a story type (trip, commercial, product, event, lifestyle);
- optionally adds some context;
- asks for suggestions.

A service route checks the request and hands it to a client for a
generative model. The client sends the images followed by one instruction
prompt, strips an optional code fence from the reply and decodes what is
left. The page then shows each suggestion as a comic-book grid.

This project models that core and proves what it promises:

- `types.dfy` (`StoryTypes`): the records shared by every part. These are the uploaded image, the story frame and suggestion, the request, and the story types with their selector table. It also holds the `Option`/`Result` wrappers and `Thrown`, which stands for a thrown JavaScript value.
- `text.dfy` (`Text`): the JavaScript string operations the core relies on. These are `trim`, `startsWith`/`endsWith`, `split` on one character, ASCII lower-casing and the decimal rendering of a count.
- `seqs.dfy` (`Seqs`): concatenation facts for any element type, used by the proofs.
- `layout.dfy` (`Layout`): the comic-book preview. It covers the grid column lookup, the wide first frame, the theme palette lookup, and which frames are drawn under which number.
- `uploader.dfy` (`Uploader`): the image uploader. It covers stripping the data-URL prefix, accepting files up to the capacity, removal by id, and moving one image.
- `gemini.dfy` (`Gemini`): the model client. It covers the request parts, the prompt, and code-fence stripping before decoding.
- `route.dfy` (`Route`): the service route. It covers the ordered checks, the defaults, and the mapping of failures to responses.
- `home.dfy` (`Page`): the page as a class whose fields are its state cells. Its methods are the uploader callbacks, the setters, the two halves of a generate click and the reset.
- `flow.dfy` (`Flow`): how the parts fit together, from page to route to model client and back, and the three-image trip story.

Calls into code outside the core become parameters:

- the model call is `service` in `Gemini.GenerateStories`;
- `JSON.parse` is `decode`;
- the route's call of the generator is `generate` in `Route.Post`;
- whether the model key is configured is `keyConfigured`;
- the server's reply seen by the page is a `Page.ServerReply` value.

The browser's file reading appears as a `SourceFile` whose `encoded` field
is the base64 text of the file. The id and preview handle minted for each
file are given as a `Uploader.Minted` value.

## Model

| member | source | states |
|---|---|---|
| StoryTypes.StoryType.Value | src/lib/types.ts:23-28 | every story type travels as a non-empty string |
| StoryTypes.StoryTypeTableListsEachTypeOnce | src/lib/types.ts:30-37 | the selector table lists every story type exactly once, and distinct types travel as distinct strings |
| Text.Trim | src/lib/gemini.ts:75 | `trim` yields an infix of its input that neither starts nor ends with whitespace; only whitespace is removed at either end |
| Text.TrimKeepsUnpadded | src/lib/gemini.ts:75 | text without whitespace at either end is left as it is |
| Text.Split | src/components/ImageUploader.tsx:18 | `split` on one character yields at least one piece, more than one exactly when the separator occurs, and no piece holds it |
| Text.JoinSplit | src/components/ImageUploader.tsx:18 | splitting loses nothing: joining the pieces with the separator gives the text back |
| Text.SplitJoin | src/components/ImageUploader.tsx:18 | splitting recovers separator-free pieces that were joined |
| Text.NatToString | src/lib/gemini.ts:37 | a count inside a template string is rendered as the decimal digits that denote it, with no leading zero, a single digit exactly below 10 |
| Text.ToLower | src/components/ComicBookPreview.tsx:62 | lower-casing keeps the length, turns every upper-case letter into its lower-case partner, keeps every other character, and leaves no upper-case letter |
| Layout.GridLayout | src/components/ComicBookPreview.tsx:12-29 | the lookup is total: one column exactly for 1 frame, two exactly for 2 to 4, three for every other count (5, 6, 0, negative, 7 and more) |
| Layout.Columns | src/components/ComicBookPreview.tsx:12-29 | the grid always has between 1 and 3 columns, and the class names exactly that number |
| Layout.FrameSpan | src/components/ComicBookPreview.tsx:31-39 | a frame spans two columns exactly when it is frame 0 of a 3-, 5- or 7-or-more-frame story; every other frame gets no class |
| Layout.SpanFitsGrid | src/components/ComicBookPreview.tsx:12-39 | a spanning frame always sits in a grid of at least two columns; in a 3-frame story it fills the whole two-column row |
| Layout.RowsFillExactly | src/components/ComicBookPreview.tsx:12-39 | with 1 to 6 frames the drawn cells fill whole rows; 7 frames leave part of the last row empty |
| Layout.ThemeColorsAsWritten | src/components/ComicBookPreview.tsx:41-62 | the lookup as written yields an inherited object member, not a palette, exactly when the lower-cased theme is `constructor` or `__proto__`; otherwise it yields the intended palette |
| Layout.InheritedThemeGetsNoPalette | src/components/ComicBookPreview.tsx:61-62 | the theme "Constructor" gets neither a palette nor the default one |
| Layout.ThemeColors | src/components/ComicBookPreview.tsx:41-62 | the lower-cased theme selects its own palette when it is adventure, discovery, transformation or celebration; every other theme gets the default entry; the result is always one of the table's palettes |
| Layout.ThemeColorsIgnoreCase | src/components/ComicBookPreview.tsx:61-62 | a theme and its lower-cased form get the same palette |
| Layout.PanelsUpTo | src/components/ComicBookPreview.tsx:102-116 | frames that name no existing image are skipped; every drawn panel is numbered with its frame's position plus one, shows that frame's image, caption and span, and the numbers strictly increase |
| Layout.NamedFrameIsDrawn | src/components/ComicBookPreview.tsx:102-116 | every frame that names an existing image is drawn, as panel number position plus one |
| Layout.IntendedPreview | src/components/ComicBookPreview.tsx:55-62 | the preview with the corrected theme lookup agrees with the lookup as written on every theme for which that yields a palette; the grid is chosen by the full frame count; there are never more panels than frames, and one per frame when every frame names an image |
| Layout.AllNamedNoGaps | src/components/ComicBookPreview.tsx:102-116 | when every frame names an image there is one panel per frame, numbered 1, 2, 3, ... without gaps |
| Uploader.FileToBase64 | src/components/ImageUploader.tsx:12-24 | the second comma-separated piece exists exactly when the text holds a comma, and it holds no comma |
| Uploader.FileToBase64OfDataUrl | src/components/ImageUploader.tsx:17-18 | for `data:<mime>;base64,<payload>` with a comma-free type and payload the result is exactly the payload |
| Uploader.Accepted | src/components/ImageUploader.tsx:39-52 | the images added for a batch are never more than the files in it |
| Uploader.AcceptedAreImages | src/components/ImageUploader.tsx:40-50 | every added image has a type starting with `image/`, taken from its own file, and comes from a submitted file |
| Uploader.AcceptedCountsImageFiles | src/components/ImageUploader.tsx:39-52 | exactly one image is added per image file; other files add nothing |
| Uploader.AcceptedAppend | src/components/ImageUploader.tsx:39-54 | submission order is kept: two batches accepted one after the other add the images of both in order |
| Uploader.HandleFiles | src/components/ImageUploader.tsx:33-57 | only the first `maxImages - images.length` files are looked at; the result is the old list unchanged followed by the images built from the image files among them, in order; the list never exceeds `maxImages` |
| Uploader.RemoveImage | src/components/ImageUploader.tsx:75-78 | removal never lengthens the list |
| Uploader.RemoveImageMembers | src/components/ImageUploader.tsx:75-78 | exactly the images with a different id remain |
| Uploader.RemoveImageAppend | src/components/ImageUploader.tsx:75-78 | removal works piece by piece, so the kept images stay in their original order |
| Uploader.RemoveImageIdempotent | src/components/ImageUploader.tsx:75-78 | removing an id twice is the same as removing it once |
| Uploader.RemoveAbsentId | src/components/ImageUploader.tsx:75-78 | a list without the id is left as it is |
| Uploader.MoveImage | src/components/ImageUploader.tsx:80-86 | a target outside the list hands nothing back; otherwise the result has the moved image at the target, and the other images in their old order |
| Uploader.MoveIsPermutation | src/components/ImageUploader.tsx:82-85 | a move is a permutation of the list |
| Uploader.MoveIsUnique | src/components/ImageUploader.tsx:82-85 | there is only one list that is the move of a given image to a given place |
| Uploader.AdjacentMoveSwaps | src/components/ImageUploader.tsx:142-159 | the arrow buttons' moves to a neighbouring position swap the two neighbours and change nothing else |
| Gemini.ImageParts | src/lib/gemini.ts:30-35 | one inline part per image, in the same order, carrying that image's payload and type |
| Gemini.FillEmbedsInputs | src/lib/gemini.ts:37-68 | whatever the fixed wording, a filled-in prompt states the count in three places and carries the context and the story type verbatim |
| Gemini.PromptEmbedsInputs | src/lib/gemini.ts:37-68 | the prompt holds "Analyze these N images", "use ALL N images", "exactly N frames", the context line and the story-type line |
| Gemini.Contents | src/lib/gemini.ts:30-70 | the model receives the image parts in request order, then exactly one text part, the prompt |
| Gemini.LeadingFence | src/lib/gemini.ts:77 | the leading match is three backticks, an optional `json` and an optional newline, and is a prefix of the text; it is the longest such prefix, so `json` and the newline are taken whenever they follow; it is empty exactly when the text does not start with three backticks |
| Gemini.TrailingFence | src/lib/gemini.ts:77 | the trailing match is an optional newline and three backticks at the very end; it is the longest such suffix, so the newline is taken whenever the text ends with a newline and three backticks; it is empty exactly when the text does not end with three backticks |
| Gemini.UnfencedReplyUnchanged | src/lib/gemini.ts:75-76 | trimmed text that does not start with three backticks goes to the decoder unchanged |
| Gemini.Unfence | src/lib/gemini.ts:76-78 | the text left is the piece of the trimmed reply that starts right after the leading match; a reply not starting with three backticks is left alone |
| Gemini.CleanReply | src/lib/gemini.ts:75-78 | the decoder gets the piece of the trimmed reply that starts right after its leading fence, never longer than the reply |
| Gemini.CleanReplyRemovesOnlyFences | src/lib/gemini.ts:75-78 | the trimmed reply is the leading fence, the decoded text and the trailing fence, in this order; the leading fence is the leading match of the trimmed reply and the trailing fence the trailing match of what follows it, so each is removed whenever it is there and nothing else is altered; the leading fence is non-empty exactly when the text starts with three backticks |
| Gemini.FencedBodyComesBack | src/lib/gemini.ts:75-78 | a body between a fence line (tagged or not) and a closing fence line comes back exactly |
| Gemini.FenceRoundTrip | src/lib/gemini.ts:75-78 | both "```json\n" + b + "\n```" and "```\n" + b + "\n```" strip to exactly b |
| Gemini.GenerateStories | src/lib/gemini.ts:25-82 | a failing model call is passed on; otherwise the cleaned reply is decoded, and a decoding failure becomes an `Error` with the decoder's message |
| Gemini.NoShapeCheck | src/lib/gemini.ts:80-81 | the decoded list is returned as is, even with no suggestion at all |
| Route.Validate | src/app/api/generate-story/route.ts:9-28 | a request passes exactly when it has 1 to 10 images and the key is configured; missing or no images give 400 first, more than 10 give 400, and only then a missing key gives 500 |
| Route.OrDefault | src/app/api/generate-story/route.ts:32-33 | a missing or empty value is replaced by the fallback; any other value passes through |
| Route.WithDefaults | src/app/api/generate-story/route.ts:30-34 | the generator gets the images as given and a non-empty context and story type, defaulting to "Create an engaging social media story" and "lifestyle" |
| Route.DefaultsKeepGivenValues | src/app/api/generate-story/route.ts:30-34 | a request that already carries a context and a story type passes through unchanged |
| Route.DefaultsIdempotent | src/app/api/generate-story/route.ts:30-34 | filling in the defaults twice is filling them in once |
| Route.MessageOf | src/app/api/generate-story/route.ts:37-41 | a caught `Error` gives its own message, and anything else gives "Failed to generate stories" |
| Route.Post | src/app/api/generate-story/route.ts:4-43 | the status is 200, 400 or 500; a body that cannot be read gives 500; a failed check gives that check's response; 200 comes exactly when the checks pass and the generator succeeds, with exactly the generator's stories; a generator that throws after the checks pass gives 500 with the thrown `Error`'s message, or "Failed to generate stories" for any other thrown value |
| Route.GeneratorOnlyForValidRequests | src/app/api/generate-story/route.ts:9-30 | for a request without 1 to 10 images and a configured key, every generator gives the same response, so none is consulted |
| Route.CountChecksComeFirst | src/app/api/generate-story/route.ts:9-28 | an empty or oversized request gets 400 whether or not the key is configured |
| Page.Payloads | src/app/page.tsx:33-36 | the request lists the current images in order, carrying only their payload and type |
| Page.ContextToSend | src/app/page.tsx:37-39 | the context sent is never empty: the user's own, or `Create an engaging <type> story for social media` |
| Page.RequestFor | src/app/page.tsx:32-41 | the request carries the payloads, the context the page sends (the user's own or the type's default) and the story type's value, both non-empty |
| Page.Outcome | src/app/page.tsx:44-55 | an ok reply gives its stories; a failed response gives the server's error or "Failed to generate stories", never an empty message; a thrown `Error` gives its message, anything else "Something went wrong" |
| Page.Home.constructor | src/app/page.tsx:11-17 | the page starts with no images, a trip story, no context, no stories, not loading, no error, on the upload step |
| Page.Home.GenerateDisabled | src/app/page.tsx:198 | the generate button is disabled exactly while loading or with fewer than 2 images |
| Page.Home.AddFiles | src/app/page.tsx:146 | files go through the uploader with its default cap of 10; the page never holds more than 10 images; nothing else changes |
| Page.Home.RemoveImage | src/app/page.tsx:146 | the images with the id are removed through the uploader; nothing else changes |
| Page.Home.MoveImage | src/app/page.tsx:146 | a move through the uploader; a target outside the list leaves the list alone; nothing else changes |
| Page.Home.SelectStoryType | src/app/page.tsx:159-162 | only the story type changes |
| Page.Home.SetContext | src/app/page.tsx:178-184 | only the context changes |
| Page.Home.BeginGenerate | src/app/page.tsx:19-42 | with fewer than 2 images only the "at least 2 images" error is set: nothing is sent and `loading` is untouched; otherwise `loading` is set, the error cleared and the current images, context and story type sent |
| Page.Home.FinishGenerate | src/app/page.tsx:44-58 | an ok reply stores its stories and moves to the results step; a failure sets the error and keeps the step and stories; `loading` is false after every outcome |
| Page.Home.HandleGenerate | src/app/page.tsx:19-59 | a whole click: guard, request, then success or failure, with `loading` false at the end whenever a request was made |
| Page.Home.HandleReset | src/app/page.tsx:79-83 | back to the upload step with no stories and no error; images, context, story type and loading are kept |
| Flow.PageRequestPassesRoute | src/app/api/generate-story/route.ts:9-34 | a page request with 2 to 10 images passes the route's checks when the key is configured, and the route's defaults never fire; without the key the configuration error comes back |
| Flow.UploadOrderReachesModel | src/lib/gemini.ts:30-70 | the model receives the page's images in their arranged order, each with its own payload and type, then the prompt for that many images with the page's context and story type |
| Flow.RouteAnswerShownOnPage | src/app/page.tsx:44-55 | a 200 answer's stories are what the page shows; a refusal or failure shows the route's own message |
| Flow.ThreeImageTrip | src/app/page.tsx:37-39 | three images, no context and a trip story give the trip default context, pass the route unchanged, and a three-frame story is drawn in two columns with only its first frame wide |

## Left out

- The model SDK call, `response.text()`, the browser `fetch` and the Next.js request and response plumbing are not modelled. They are parameters or reply values instead.
- `JSON.parse` is a parameter. Its grammar is not modelled, and the decoded value is assumed to have the suggestion shape.
- `FileReader`, `URL.createObjectURL`, and the `Date.now()`/`Math.random()` ids are taken as given. The code does not make ids unique, and the model does not assume they are.
- The `process.env` key lookup is a boolean.
- `analyzeImageForPreview` is not modelled. It is a network call that nothing in the application uses.
- Export through html2canvas and the download link are not modelled. They are canvas and DOM work.
- The story-type selector, the loading spinner, the root layout, and the markup and styles beyond the layout classes are not modelled.
- Asynchrony is not modelled:
  - `handleFiles` is one sequential call, although it awaits inside its loop and works on the list it captured.
  - A generate click is split into `BeginGenerate` and `FinishGenerate`. Interleavings with other user actions in between are not modelled.
- Uploader.HandleFiles: requires the list to be within the capacity. With a negative remaining capacity, `slice(0, -k)` would take all but the last k files; the page never reaches that state.
- Uploader.MoveImage: requires an in-range `fromIndex`. With an out-of-range one, splice would insert `undefined`; the arrow buttons never pass one.
- Layout.ThemeColors: lower-casing covers ASCII letters only, not the full Unicode case mapping of `toLowerCase`.
- Layout.ThemeColorsAsWritten: lower-casing covers ASCII letters only, not the full Unicode case mapping of `toLowerCase`.
- Text.ToLower: ASCII letters only, not the full Unicode case mapping of `toLowerCase`.
- Layout.IntendedPreview: uses the corrected theme lookup, so for the themes `constructor` and `__proto__` it shows the default palette where the component as written has none (see Findings).
- Layout.PanelsUpTo: `imageIndex` is an integer. A fractional index, which would also be skipped, is not modelled.
- Route.Post: `images` is either missing or an array of payloads, and `context` and `storyType` are either missing or strings. A body whose `images` is some other value, which would fail inside the generator, is not modelled. Neither is a truthy non-string `context` or `storyType` (a number, an object), which `||` passes on unchanged into the prompt's template string.
- Page.Home.FinishGenerate: an ok response is taken to carry `stories`.

Three things the code does not do, and the model does not add either:

- There is no release of preview handles on removal.
- There is no check that each suggestion has one frame per image or that frame indices are in range.
- There is no shape check when decoding the reply.

## Findings

| source | as written | input that shows it | evidently intended | confidence | as-written member | corrected member |
|---|---|---|---|---|---|---|
| src/components/ComicBookPreview.tsx:61-62 | `themeColors[story.theme.toLowerCase()] \|\| themeColors.default` indexes a plain object, so a lower-cased theme naming an inherited member (`constructor`, `__proto__`) yields that truthy member instead of a palette | theme "Constructor" | every theme outside the four named ones gets the default palette | high; not executed | Layout.ThemeColorsAsWritten, Layout.InheritedThemeGetsNoPalette | Layout.ThemeColors |
