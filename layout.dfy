/** The comic-book preview of one story suggestion: how many grid columns
    the frames are laid out in, which frame spans two columns, which colour
    palette the story's theme selects, and which frames are drawn with which
    number. */
module Layout {
  import opened StoryTypes
  import opened Text

  /** The grid's column class for a story of `frameCount` frames: a total
      lookup whose default branch covers 0, negative counts and 7 upwards. */
  function GridLayout(frameCount: int): (cls: string)
    ensures cls == "grid-cols-1" <==> frameCount == 1
    ensures cls == "grid-cols-2" <==> 2 <= frameCount <= 4
    ensures cls == "grid-cols-3" <==> frameCount < 1 || frameCount > 4
  {
    match frameCount
    case 1 => "grid-cols-1"
    case 2 => "grid-cols-2"
    case 3 => "grid-cols-2"
    case 4 => "grid-cols-2"
    case 5 => "grid-cols-3"
    case 6 => "grid-cols-3"
    case _ => "grid-cols-3"
  }

  /** The number of columns the grid class names: always between 1 and 3. */
  function Columns(frameCount: int): (cols: nat)
    ensures 1 <= cols <= 3
    ensures GridLayout(frameCount) == "grid-cols-" + NatToString(cols)
  {
    if frameCount == 1 then 1 else if 2 <= frameCount <= 4 then 2 else 3
  }

  const Span2 := "col-span-2"

  /** The extra class of frame `index` in a story of `frameCount` frames:
      only the first frame of a 3-, 5- or 7-and-more-frame story spans two
      columns; every other frame gets no class. */
  function FrameSpan(frameCount: int, index: int): (cls: string)
    ensures cls == Span2 <==> index == 0 && (frameCount == 3 || frameCount == 5 || frameCount >= 7)
    ensures cls != Span2 ==> cls == ""
  {
    if frameCount == 3 && index == 0 then Span2
    else if frameCount == 5 && index == 0 then Span2
    else if frameCount >= 7 && index == 0 then Span2
    else ""
  }

  /** A spanning frame always sits in a grid of at least two columns, and in
      a 3-frame story the spanning first frame fills its whole row. */
  lemma SpanFitsGrid(frameCount: int, index: int)
    requires FrameSpan(frameCount, index) == Span2
    ensures Columns(frameCount) >= 2
    ensures frameCount == 3 ==> Columns(frameCount) == 2
  {
  }

  /** The cells a story of `frameCount` frames occupies when every frame is
      drawn: one per frame, plus one for a spanning first frame. */
  function Cells(frameCount: nat): nat
  {
    frameCount + if FrameSpan(frameCount, 0) == Span2 then 1 else 0
  }

  /** For 1 to 6 frames the layout fills whole rows, leaving no empty cell;
      from 7 frames on it need not (7 frames leave two cells of the last
      row empty). */
  lemma RowsFillExactly(frameCount: nat)
    ensures 1 <= frameCount <= 6 ==> Cells(frameCount) % Columns(frameCount) == 0
    ensures Cells(7) % Columns(7) != 0
  {
  }

  /** The colour palette of a theme. */
  datatype Palette = Palette(bg: string, accent: string)

  const DefaultPalette := Palette("from-gray-900/80 to-slate-900/80", "#7c3aed")

  /** The own entries of the theme-colour table. */
  const ThemeTable: map<string, Palette> := map[
    "adventure" := Palette("from-amber-900/80 to-orange-900/80", "#f59e0b"),
    "discovery" := Palette("from-blue-900/80 to-cyan-900/80", "#06b6d4"),
    "transformation" := Palette("from-purple-900/80 to-pink-900/80", "#a855f7"),
    "celebration" := Palette("from-yellow-900/80 to-red-900/80", "#eab308"),
    "default" := DefaultPalette
  ]

  const NamedThemes: set<string> := {"adventure", "discovery", "transformation", "celebration"}

  /** The member names every plain JavaScript object inherits from
      `Object.prototype` that are written in lower case only, so that a
      lower-cased theme can be one of them. Both hold truthy values. */
  const InheritedKeys: set<string> := {"constructor", "__proto__"}

  /** What the lookup yields: one of the table's palettes, or an inherited
      member of the table object that is not a palette at all. */
  datatype ColorLookup = OwnPalette(palette: Palette) | PrototypeMember(name: string)

  /** The theme-colour lookup as written: index the table object with the
      lower-cased theme and fall back to the default entry when the result
      is falsy. An inherited member is truthy, so it is returned as is. */
  function ThemeColorsAsWritten(theme: string): (v: ColorLookup)
    ensures v.PrototypeMember? <==> ToLower(theme) in InheritedKeys
    ensures v.OwnPalette? ==> v.palette == ThemeColors(theme)
  {
    var key := ToLower(theme);
    if key in ThemeTable then OwnPalette(ThemeTable[key])
    else if key in InheritedKeys then PrototypeMember(key)
    else OwnPalette(DefaultPalette)
  }

  /** The theme "Constructor" gets no palette and no default either. */
  lemma InheritedThemeGetsNoPalette()
    ensures ThemeColorsAsWritten("Constructor") == PrototypeMember("constructor")
  {
    LowerCaseOfConstructor();
    assert "constructor" in InheritedKeys && "constructor" !in ThemeTable;
  }

  lemma LowerCaseOfConstructor()
    ensures ToLower("Constructor") == "constructor"
  {
    assert forall i :: 0 <= i < 11 ==> ToLower("Constructor")[i] == "constructor"[i];
  }

  /** The intended lookup: the palette named by the lower-cased theme when
      the table has one, and the default palette for every other theme. */
  function ThemeColors(theme: string): (p: Palette)
    ensures ToLower(theme) in NamedThemes ==> p == ThemeTable[ToLower(theme)]
    ensures ToLower(theme) !in NamedThemes ==> p == DefaultPalette
    ensures p in ThemeTable.Values
  {
    var key := ToLower(theme);
    assert DefaultPalette == ThemeTable["default"];
    if key in ThemeTable then ThemeTable[key] else DefaultPalette
  }

  /** The lookup ignores letter case: a theme and its lower-cased form get
      the same palette. */
  lemma ThemeColorsIgnoreCase(theme: string)
    ensures ThemeColors(ToLower(theme)) == ThemeColors(theme)
  {
    assert ToLower(ToLower(theme)) == ToLower(theme);
  }

  /** One drawn frame: its printed number, the image it shows, its caption
      and its span class. */
  datatype Panel = Panel(number: nat, image: UploadedImage, caption: string, span: string)

  /** Frame `f` names one of the images that are there. */
  predicate NamesImage(f: StoryFrame, images: seq<UploadedImage>)
  {
    0 <= f.imageIndex < |images|
  }

  /** The panel drawn for frame `i`: numbered from its position in the
      story, spanning by its position in the story. */
  function PanelAt(frames: seq<StoryFrame>, images: seq<UploadedImage>, i: nat): Panel
    requires i < |frames| && NamesImage(frames[i], images)
  {
    Panel(i + 1, images[frames[i].imageIndex], frames[i].caption, FrameSpan(|frames|, i))
  }

  /** The panels drawn for the first `k` frames; a frame that names no
      existing image is skipped. Every panel is the one of the frame its
      number gives, and the numbers strictly increase. */
  function PanelsUpTo(frames: seq<StoryFrame>, images: seq<UploadedImage>, k: nat): (ps: seq<Panel>)
    requires k <= |frames|
    ensures |ps| <= k
    ensures forall j :: 0 <= j < |ps| ==>
      1 <= ps[j].number <= k && NamesImage(frames[ps[j].number - 1], images)
      && ps[j] == PanelAt(frames, images, ps[j].number - 1)
    ensures forall j1, j2 :: 0 <= j1 < j2 < |ps| ==> ps[j1].number < ps[j2].number
  {
    if k == 0 then []
    else
      var before := PanelsUpTo(frames, images, k - 1);
      if NamesImage(frames[k - 1], images) then before + [PanelAt(frames, images, k - 1)]
      else before
  }

  /** The frames of a story as the preview draws them. */
  function Panels(frames: seq<StoryFrame>, images: seq<UploadedImage>): seq<Panel>
  {
    PanelsUpTo(frames, images, |frames|)
  }

  /** No frame that names an image is lost: frame `i` is drawn, as panel
      number `i + 1`. */
  lemma {:induction false} NamedFrameIsDrawn(frames: seq<StoryFrame>, images: seq<UploadedImage>, k: nat, i: nat)
    requires i < k <= |frames| && NamesImage(frames[i], images)
    ensures exists j :: 0 <= j < |PanelsUpTo(frames, images, k)| && PanelsUpTo(frames, images, k)[j].number == i + 1
  {
    var ps := PanelsUpTo(frames, images, k);
    if i == k - 1 {
      assert ps[|ps| - 1].number == i + 1;
    } else {
      NamedFrameIsDrawn(frames, images, k - 1, i);
      var j :| 0 <= j < |PanelsUpTo(frames, images, k - 1)| && PanelsUpTo(frames, images, k - 1)[j].number == i + 1;
      assert ps[j] == PanelsUpTo(frames, images, k - 1)[j];
    }
  }

  /** When every frame names an image there is one panel per frame, and the
      panels are numbered 1, 2, 3, ... without gaps. */
  lemma {:induction false} AllNamedNoGaps(frames: seq<StoryFrame>, images: seq<UploadedImage>, k: nat)
    requires k <= |frames|
    requires forall i :: 0 <= i < |frames| ==> NamesImage(frames[i], images)
    ensures |PanelsUpTo(frames, images, k)| == k
    ensures forall j :: 0 <= j < k ==> PanelsUpTo(frames, images, k)[j].number == j + 1
  {
    if k > 0 {
      AllNamedNoGaps(frames, images, k - 1);
    }
  }

  /** What the preview of one story shows. */
  datatype PreviewPlan = PreviewPlan(palette: Palette, grid: string, panels: seq<Panel>)

  /** The preview of `story` as intended, that is with the corrected
      theme lookup: it agrees with the lookup as written on every theme for
      which that yields a palette. The grid is chosen by the story's full
      frame count, skipped frames included, and there is one panel per
      frame when every frame names an image. */
  function IntendedPreview(story: StorySuggestion, images: seq<UploadedImage>): (plan: PreviewPlan)
    ensures ThemeColorsAsWritten(story.theme).OwnPalette? ==>
      plan.palette == ThemeColorsAsWritten(story.theme).palette
    ensures plan.grid == GridLayout(|story.frames|)
    ensures |plan.panels| <= |story.frames|
    ensures (forall i :: 0 <= i < |story.frames| ==> NamesImage(story.frames[i], images)) ==>
      |plan.panels| == |story.frames|
  {
    assert (forall i :: 0 <= i < |story.frames| ==> NamesImage(story.frames[i], images)) ==>
      |Panels(story.frames, images)| == |story.frames| by {
      if forall i :: 0 <= i < |story.frames| ==> NamesImage(story.frames[i], images) {
        AllNamedNoGaps(story.frames, images, |story.frames|);
      }
    }
    PreviewPlan(ThemeColors(story.theme), GridLayout(|story.frames|), Panels(story.frames, images))
  }
}
