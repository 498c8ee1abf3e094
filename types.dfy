/** The records shared by the browser page, the service route and the model
    client: uploaded images, story frames, story suggestions and story types.
    Also the failure-carrying wrappers the other modules use for JavaScript's
    `undefined` results and thrown values. */
module StoryTypes {

  datatype Option<+T> = None | Some(value: T)

  datatype Result<+T, +E> = Ok(value: T) | Err(error: E)

  /** A value thrown by JavaScript code: an `Error` object carrying its
      message, or any other value (which has no message). */
  datatype Thrown = ErrorValue(message: string) | OtherValue

  /** A file handed over by the browser's file picker or a drop. `encoded`
      stands for the base64 text of the file's bytes. */
  datatype SourceFile = SourceFile(name: string, fileType: string, encoded: string)

  /** An image accepted into the working set. `preview` is the local display
      handle the browser minted for it. */
  datatype UploadedImage = UploadedImage(
    id: string,
    file: SourceFile,
    preview: string,
    base64: string,
    mimeType: string)

  /** One panel of a story: which input image, and its texts. The model's
      JSON may put any integer here; nothing checks the range. */
  datatype StoryFrame = StoryFrame(imageIndex: int, caption: string, narrativeText: string)

  datatype StorySuggestion = StorySuggestion(
    title: string,
    theme: string,
    frames: seq<StoryFrame>,
    hookText: string,
    closingText: string)

  /** The `{ base64, mimeType }` pair that travels for each image. */
  datatype ImagePayload = ImagePayload(base64: string, mimeType: string)

  /** The body of a story-generation request. */
  datatype StoryRequest = StoryRequest(images: seq<ImagePayload>, context: string, storyType: string)

  datatype StoryType = Trip | Commercial | Product | Event | Lifestyle {
    /** The string the type travels as. */
    function Value(): (v: string)
      ensures v != ""
    {
      match this
      case Trip => "trip"
      case Commercial => "commercial"
      case Product => "product"
      case Event => "event"
      case Lifestyle => "lifestyle"
    }
  }

  datatype StoryTypeEntry = StoryTypeEntry(value: StoryType, displayName: string, icon: string)

  /** The selector's table of story types, in display order. */
  const StoryTypeTable: seq<StoryTypeEntry> := [
    StoryTypeEntry(Trip, "Travel / Trip", "plane"),
    StoryTypeEntry(Commercial, "Commercial / Ad", "megaphone"),
    StoryTypeEntry(Product, "Product Showcase", "package"),
    StoryTypeEntry(Event, "Event Coverage", "calendar"),
    StoryTypeEntry(Lifestyle, "Lifestyle / Personal", "heart")
  ]

  /** Every story type is listed in the table exactly once, and distinct
      types travel as distinct strings. */
  lemma StoryTypeTableListsEachTypeOnce(t: StoryType)
    ensures exists i :: 0 <= i < |StoryTypeTable| && StoryTypeTable[i].value == t
    ensures forall i, j :: 0 <= i < j < |StoryTypeTable| ==> StoryTypeTable[i].value != StoryTypeTable[j].value
    ensures forall u: StoryType :: u.Value() == t.Value() ==> u == t
  {
    var i := match t
      case Trip => 0
      case Commercial => 1
      case Product => 2
      case Event => 3
      case Lifestyle => 4;
    assert StoryTypeTable[i].value == t;
  }
}
