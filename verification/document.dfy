/**
 * The document model: a Store maps presentation ids to Presentations, a
 * Presentation holds an ordered sequence of Slides, and a Slide an ordered
 * sequence of SlideElements. Every element is the base `{id, x, y}` joined to
 * exactly one of four variant payloads. Field sets follow the code that
 * builds these values (the provider's `createPresentation`/`createSlide` and
 * the four element editors), which carries more than the declared types do:
 * slide and presentation backgrounds, `fontFamily`, `width`/`height` and the
 * `elementType` tag.
 *
 * Numbers are integers here (see README). A code element's `fontSize` is
 * stored unvalidated and may be `NaN`, so it is an `Option<int>`.
 */
module Document {
  import opened Wrappers

  /** `UploadImageType`: 'url' | 'base64'. */
  datatype ImgType = Url | Base64

  /** The three selectable fonts. */
  datatype FontFamily = Roboto | SourGummy | PTSerif

  /** A background, tagged by `type`; `default` occurs on slides only. */
  datatype Background =
    | SolidColor(solidColor: string)
    | Gradient(gradientColorFrom: string, gradientColorTo: string)
    | ImageFill(img: string, imgType: ImgType)
    | DefaultBackground

  /** The variant payload of an element (`SlideElementsWithoutBase`), tagged by `elementType`. */
  datatype ElementContent =
    | TextContent(width: int, height: int, text: string, fontSize: int, color: string)
    | ImageContent(width: int, height: int, img: string, imgType: ImgType, alt: string)
    | VideoContent(width: int, height: int, watchUrl: string, embdedUrl: string, autoplay: bool)
    | CodeContent(width: int, height: int, code: string, codeFontSize: Option<int>, language: string)

  /** `SlideElementBase & SlideElementsWithoutBase`. */
  datatype SlideElement = SlideElement(id: string, x: int, y: int, content: ElementContent)

  datatype Slide = Slide(id: string, elements: seq<SlideElement>, fontFamily: FontFamily, background: Background)

  datatype Presentation = Presentation(
    id: string,
    name: string,
    description: string,
    background: Background,
    createAt: int,
    slides: seq<Slide>,
    thumbnail: Option<string>,
    thumbnailType: Option<ImgType>)

  type Store = map<string, Presentation>

  /**
   * The store operations that the editors call but whose bodies are not part
   * of this model. Slides are addressed by position, elements by the id of
   * their slide.
   */
  datatype StoreRequest =
    | CreateSlideElement(presentationId: string, slideId: string, content: ElementContent)
    | UpdateSlideElement(presentationId: string, slideId: string, elementId: string, element: SlideElement)
    | UpdateSlide(presentationId: string, slideIndex: int, slide: Slide)
    | DeleteSlide(presentationId: string, slideIndex: int)
    | UpdatePresentation(presentationId: string, presentation: Presentation)

  /** Position `k` holds the first element of `elements` whose id is `id`. */
  predicate FirstWithId(elements: seq<SlideElement>, id: string, k: int) {
    0 <= k < |elements| && elements[k].id == id && forall j | 0 <= j < k :: elements[j].id != id
  }

  /** `elements.find(ele => ele.id === id)`: the first element carrying `id`, if any. */
  function FindElement(elements: seq<SlideElement>, id: string): (r: Option<SlideElement>)
    ensures r.None? <==> forall k | 0 <= k < |elements| :: elements[k].id != id
    ensures r.Some? ==> exists k :: FirstWithId(elements, id, k) && elements[k] == r.value
  {
    if elements == [] then None
    else if elements[0].id == id then
      assert FirstWithId(elements, id, 0);
      Some(elements[0])
    else
      var r := FindElement(elements[1..], id);
      assert forall k | 1 <= k < |elements| :: elements[k] == elements[1..][k - 1];
      if r.Some? then
        var k :| FirstWithId(elements[1..], id, k) && elements[1..][k] == r.value;
        assert FirstWithId(elements, id, k + 1);
        r
      else r
  }
}
