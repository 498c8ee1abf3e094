/** The story generator's client for the generative model: it packages the
    request's images and one instruction prompt, sends them, strips an
    optional code fence from the reply and decodes what is left. The model
    call and the JSON decoder are parameters. */
module Gemini {
  import opened StoryTypes
  import opened Text

  /** One part of the multimodal request. */
  datatype Part = InlineData(data: string, mimeType: string) | TextPart(text: string)

  /** One inline part per image, in the same order, carrying that image's
      payload and type. */
  function ImageParts(images: seq<ImagePayload>): (parts: seq<Part>)
    ensures |parts| == |images|
    ensures forall i :: 0 <= i < |images| ==>
      parts[i] == InlineData(images[i].base64, images[i].mimeType)
  {
    if images == [] then []
    else [InlineData(images[0].base64, images[0].mimeType)] + ImageParts(images[1..])
  }

  // The fixed text of the prompt. Each literal is kept short: the pieces
  // are joined with `+`.

  const Opening := "You are a creative social media storytelling expert. "

  const AfterCount :=
    " and create compelling story suggestions for a social media story "
    + "(like Instagram Stories).\n"
    + "\n"

  const Rules :=
    "IMPORTANT RULES:\n"
    + "- Each image must tell a part of the story, "
    + "like panels in a comic book\n"
    + "- The story should flow naturally from one image to the next\n"
    + "- Captions should be short, punchy, and engaging "
    + "(max 10 words per caption)\n"
    + "- The narrative should hook viewers from the first frame\n"
    + "- Use the actual content visible in the images "
    + "to craft authentic stories"

  const BeforeUseAll :=
    "\n" + Rules + "\n"
    + "\n"
    + "Generate exactly 3 different story suggestions. "
    + "Each suggestion should "

  const ResponseFormat :=
    "Respond in this exact JSON format "
    + "(no markdown, no code blocks, just raw JSON):\n"
    + "[\n"
    + "  {\n"
    + "    \"title\": \"Story title (short, catchy)\",\n"
    + "    \"theme\": \"One word theme like: "
    + "adventure, discovery, transformation, celebration\",\n"
    + "    \"frames\": [\n"
    + "      {\n"
    + "        \"imageIndex\": 0,\n"
    + "        \"caption\": \"Short punchy caption for this frame\",\n"
    + "        \"narrativeText\": \"Slightly longer description of "
    + "what this frame conveys in the story (1-2 sentences)\"\n"
    + "      }\n"
    + "    ],\n"
    + "    \"hookText\": \"Opening hook text to grab attention\",\n"
    + "    \"closingText\": \"Closing CTA or memorable ending line\"\n"
    + "  }\n"
    + "]"

  const AfterUseAll :=
    " in a deliberate order that creates the best narrative flow. "
    + "You can reorder the images if needed.\n"
    + "\n"
    + ResponseFormat + "\n"
    + "\n"
    + "Each story must have "

  const Closing :=
    " (one per image). imageIndex refers to the 0-based index "
    + "of the input images."

  // The pieces of the prompt that carry the request's values.

  function CountSentence(n: string): string { "Analyze these " + n + " images" }

  function ContextLine(context: string): string { "Context: " + context + "\n" }

  function TypeLine(storyType: string): string { "Story type: " + storyType + "\n" }

  function UseAllRule(n: string): string { "use ALL " + n + " images" }

  function FrameCountRule(n: string): string { "exactly " + n + " frames" }

  /** The fixed wording of the prompt around its five variable pieces. */
  datatype Template = Template(
    opening: string,
    afterCount: string,
    beforeUseAll: string,
    afterUseAll: string,
    closing: string)

  const PromptTemplate := Template(Opening, AfterCount, BeforeUseAll, AfterUseAll, Closing)

  /** `template` with the count, the context and the story type filled in. */
  function Fill(template: Template, count: nat, context: string, storyType: string): string
  {
    var n := NatToString(count);
    template.opening + CountSentence(n) + template.afterCount
    + ContextLine(context) + TypeLine(storyType)
    + template.beforeUseAll + UseAllRule(n) + template.afterUseAll
    + FrameCountRule(n) + template.closing
  }

  /** The instruction prompt for `count` images. */
  function Prompt(count: nat, context: string, storyType: string): string
  {
    Fill(PromptTemplate, count, context, storyType)
  }

  /** In a text assembled from ten pieces, the second, fourth, fifth,
      seventh and ninth pieces occur as they are. */
  lemma HolesOccur(a0: string, a1: string, a2: string, a3: string, a4: string,
                   a5: string, a6: string, a7: string, a8: string, a9: string)
    ensures var p := a0 + a1 + a2 + a3 + a4 + a5 + a6 + a7 + a8 + a9;
      Contains(p, a1) && Contains(p, a3) && Contains(p, a4) && Contains(p, a6) && Contains(p, a8)
  {
    var p := a0 + a1 + a2 + a3 + a4 + a5 + a6 + a7 + a8 + a9;
    assert IsInfixAt(p, a1, |a0|);
    assert IsInfixAt(p, a3, |a0 + a1 + a2|);
    assert IsInfixAt(p, a4, |a0 + a1 + a2 + a3|);
    assert IsInfixAt(p, a6, |a0 + a1 + a2 + a3 + a4 + a5|);
    assert IsInfixAt(p, a8, |a0 + a1 + a2 + a3 + a4 + a5 + a6 + a7|);
  }

  /** Whatever its fixed wording, a filled-in prompt states the image count
      in its opening sentence, in the "use ALL" rule and in the "exactly N
      frames" rule, and carries the context and the story type verbatim,
      each on a line of its own. */
  lemma FillEmbedsInputs(template: Template, count: nat, context: string, storyType: string)
    ensures var p, n := Fill(template, count, context, storyType), NatToString(count);
      && Contains(p, "Analyze these " + n + " images")
      && Contains(p, "use ALL " + n + " images")
      && Contains(p, "exactly " + n + " frames")
      && Contains(p, "Context: " + context + "\n")
      && Contains(p, "Story type: " + storyType + "\n")
  {
    var n, t := NatToString(count), template;
    HolesOccur(t.opening, CountSentence(n), t.afterCount, ContextLine(context), TypeLine(storyType),
               t.beforeUseAll, UseAllRule(n), t.afterUseAll, FrameCountRule(n), t.closing);
  }

  /** The prompt sent states the image count three times and carries the
      context and the story type verbatim. */
  lemma PromptEmbedsInputs(count: nat, context: string, storyType: string)
    ensures var p, n := Prompt(count, context, storyType), NatToString(count);
      && Contains(p, "Analyze these " + n + " images")
      && Contains(p, "use ALL " + n + " images")
      && Contains(p, "exactly " + n + " frames")
      && Contains(p, "Context: " + context + "\n")
      && Contains(p, "Story type: " + storyType + "\n")
  {
    FillEmbedsInputs(PromptTemplate, count, context, storyType);
  }

  /** What the model receives: the image parts in request order, then
      exactly one text part, the prompt. */
  function Contents(request: StoryRequest): (parts: seq<Part>)
    ensures |parts| == |request.images| + 1
    ensures forall i :: 0 <= i < |request.images| ==>
      parts[i] == InlineData(request.images[i].base64, request.images[i].mimeType)
    ensures parts[|request.images|] == TextPart(Prompt(|request.images|, request.context, request.storyType))
    ensures forall i :: 0 <= i < |request.images| ==> parts[i].InlineData?
  {
    ImageParts(request.images) + [TextPart(Prompt(|request.images|, request.context, request.storyType))]
  }

  const Fence := "```"

  /** The strings `/^```(?:json)?\n?/` can match: three backticks, then
      optionally `json`, then optionally a newline. */
  predicate LeadingCandidate(g: string)
  {
    g == "```" || g == "```json" || g == "```\n" || g == "```json\n"
  }

  /** The strings `/\n?```$/` can match. */
  predicate TrailingCandidate(g: string)
  {
    g == "```" || g == "\n```"
  }

  /** The leading fence `/^```(?:json)?\n?/` matches in `s`. Both optional
      pieces are greedy, so it is the longest candidate `s` starts with:
      `json` and the newline are taken whenever they follow. Nothing
      matches when `s` does not start with three backticks. */
  function LeadingFence(s: string): (f: string)
    ensures f == "" || LeadingCandidate(f)
    ensures StartsWith(s, f)
    ensures forall g :: LeadingCandidate(g) && StartsWith(s, g) ==> |g| <= |f|
    ensures f == "" <==> !StartsWith(s, Fence)
  {
    if !StartsWith(s, Fence) then ""
    else if StartsWith(s, "```json\n") then "```json\n"
    else if StartsWith(s, "```json") then "```json"
    else if StartsWith(s, "```\n") then "```\n"
    else Fence
  }

  /** The trailing fence `/\n?```$/` matches in `s`: the longest candidate
      `s` ends with, so the newline before the closing backticks is taken
      whenever it is there; nothing when `s` does not end with three
      backticks. */
  function TrailingFence(s: string): (f: string)
    ensures f == "" || TrailingCandidate(f)
    ensures EndsWith(s, f)
    ensures forall g :: TrailingCandidate(g) && EndsWith(s, g) ==> |g| <= |f|
    ensures f == "" <==> !EndsWith(s, Fence)
  {
    if EndsWith(s, "\n```") then "\n```" else if EndsWith(s, Fence) then Fence else ""
  }

  /** Trimmed reply text without its fences: when it starts with three
      backticks, one leading and then one trailing fence are removed. */
  function Unfence(t: string): (r: string)
    ensures IsInfixAt(t, r, |LeadingFence(t)|)
    ensures !StartsWith(t, Fence) ==> r == t
  {
    if StartsWith(t, Fence) then
      var inner := t[|LeadingFence(t)|..];
      var m := |inner| - |TrailingFence(inner)|;
      SliceIsInfix(t, |LeadingFence(t)|, m);
      inner[..m]
    else
      SliceIsInfix(t, 0, |t|);
      t
  }

  /** The first `m` characters after position `l` are the piece of `t`
      that starts at `l`. */
  lemma SliceIsInfix(t: string, l: nat, m: nat)
    requires l + m <= |t|
    ensures IsInfixAt(t, t[l..][..m], l)
    ensures l == 0 && m == |t| ==> t[l..][..m] == t
  {
  }

  /** The reply text handed to the decoder: the piece of the trimmed reply
      that follows its leading fence, if any. */
  function CleanReply(text: string): (r: string)
    ensures IsInfixAt(Trim(text), r, |LeadingFence(Trim(text))|)
    ensures |r| <= |Trim(text)| <= |text|
  {
    Unfence(Trim(text))
  }

  /** Trimmed text that does not start with a fence goes to the decoder
      unchanged. */
  lemma UnfencedReplyUnchanged(text: string)
    requires !StartsWith(Trim(text), Fence)
    ensures CleanReply(text) == Trim(text)
  {
  }

  /** Nothing but the two fences is removed: the trimmed text is the
      leading fence, the decoded text and the trailing fence, in this
      order, and the leading one is there exactly when the text is
      fenced. */
  lemma CleanReplyRemovesOnlyFences(text: string) returns (lead: string, trail: string)
    ensures lead == LeadingFence(Trim(text))
    ensures trail == if lead == "" then "" else TrailingFence(Trim(text)[|lead|..])
    ensures Trim(text) == lead + CleanReply(text) + trail
    ensures lead != "" <==> StartsWith(Trim(text), Fence)
  {
    lead, trail := UnfenceSplits(Trim(text));
  }

  lemma UnfenceSplits(t: string) returns (lead: string, trail: string)
    ensures lead == LeadingFence(t)
    ensures trail == if lead == "" then "" else TrailingFence(t[|lead|..])
    ensures t == lead + Unfence(t) + trail
    ensures lead != "" <==> StartsWith(t, Fence)
  {
    if StartsWith(t, Fence) {
      lead := LeadingFence(t);
      var inner := t[|lead|..];
      trail := TrailingFence(inner);
      ThreeWay(t, |lead|, |trail|);
    } else {
      lead, trail := "", "";
    }
  }

  /** Cutting `i` characters off the front and then `j` off the back leaves
      the middle of `t`. */
  lemma ThreeWay(t: string, i: nat, j: nat)
    requires i + j <= |t|
    ensures t == t[..i] + t[i..][..|t| - i - j] + t[i..][|t| - i - j..]
  {
    assert t == t[..i] + t[i..];
    assert t[i..] == t[i..][..|t| - i - j] + t[i..][|t| - i - j..];
  }

  /** A body between a leading fence on its own line and a trailing fence
      on its own line comes back exactly. */
  lemma FencedBodyComesBack(lead: string, body: string)
    requires lead == "```json\n" || lead == "```\n"
    ensures CleanReply(lead + body + "\n```") == body
  {
    var t := lead + body + "\n```";
    assert t[0] == '`' && t[|t| - 1] == '`';
    TrimKeepsUnpadded(t);
    LeadingFenceOnOwnLine(lead, body + "\n```");
    assert t == lead + (body + "\n```");
    var inner := body + "\n```";
    assert EndsWith(inner, "\n```");
    assert inner[..|inner| - 4] == body;
  }

  lemma LeadingFenceOnOwnLine(lead: string, rest: string)
    requires lead == "```json\n" || lead == "```\n"
    ensures StartsWith(lead + rest, Fence)
    ensures LeadingFence(lead + rest) == lead
  {
    var t := lead + rest;
    assert t[..|lead|] == lead;
    assert t[..3] == lead[..3];
    if lead == "```\n" {
      assert t[3] == '\n';
    }
  }

  /** A body wrapped in a `json`-tagged or an untagged fence, each fence on
      its own line, comes back exactly. */
  lemma FenceRoundTrip(body: string)
    ensures CleanReply("```json\n" + body + "\n```") == body
    ensures CleanReply("```\n" + body + "\n```") == body
  {
    FencedBodyComesBack("```json\n", body);
    FencedBodyComesBack("```\n", body);
  }

  /** Generates suggestions for `request`. `service` is the model call
      (its reply text, or what it throws); `decode` is `JSON.parse` (the
      decoded list, or the message of the syntax error it throws). The
      decoded list is returned as it is. */
  function GenerateStories(
    request: StoryRequest,
    service: seq<Part> -> Result<string, Thrown>,
    decode: string -> Result<seq<StorySuggestion>, string>
  ): (r: Result<seq<StorySuggestion>, Thrown>)
    ensures service(Contents(request)).Err? ==> r == Err(service(Contents(request)).error)
    ensures service(Contents(request)).Ok? ==>
      var decoded := decode(CleanReply(service(Contents(request)).value));
      && (decoded.Ok? ==> r == Ok(decoded.value))
      && (decoded.Err? ==> r == Err(ErrorValue(decoded.error)))
  {
    match service(Contents(request))
    case Err(thrown) => Err(thrown)
    case Ok(text) =>
      match decode(CleanReply(text))
      case Ok(stories) => Ok(stories)
      case Err(message) => Err(ErrorValue(message))
  }

  /** Nothing checks the decoded list's shape: whatever the decoder
      yields, even no suggestion at all, is the result. */
  lemma NoShapeCheck(request: StoryRequest, text: string, stories: seq<StorySuggestion>)
    ensures GenerateStories(request, _ => Ok(text), _ => Ok(stories)) == Ok(stories)
  {
  }
}
