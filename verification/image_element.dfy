/**
 * The image element editor. The image comes either from a typed URL or
 * from an uploaded file turned into a base64 data URL; the chosen
 * `imgType` decides which of the two is saved. Size is checked in both
 * modes, position only when editing. Fields are not cleared after a
 * submission; opening the editor in create mode clears them instead.
 */
module ImageElement {
  import opened Wrappers
  import opened JsString
  import opened Document
  import opened ElementForm

  datatype ImageForm = ImageForm(
    x: string, y: string, width: string, height: string,
    url: string, base64: string, imgType: ImgType, currentImg: string, alt: string)

  const EmptyImageForm := ImageForm("", "", "", "", "", "", Url, "", "")

  /** The text fields with a `handleChange*` handler. */
  datatype ImageField = X | Y | Width | Height | UrlText | Alt

  /** Position and size take digits only; the URL and alt text take anything. */
  predicate Accepts(field: ImageField, value: string) {
    match field
    case UrlText => true
    case Alt => true
    case _ => AllDigits(value)
  }

  function Set(f: ImageForm, field: ImageField, value: string): ImageForm {
    match field
    case X => f.(x := value)
    case Y => f.(y := value)
    case Width => f.(width := value)
    case Height => f.(height := value)
    case UrlText => f.(url := value)
    case Alt => f.(alt := value)
  }

  /** Opening in create mode clears every text field but keeps the type and the preview. */
  function Cleared(f: ImageForm): ImageForm {
    f.(x := "", y := "", width := "", height := "", url := "", base64 := "", alt := "")
  }

  /** The fields an existing image element loads into; the image goes to the field of its type. */
  function FormOf(e: SlideElement): (r: ImageForm)
    requires e.content.ImageContent?
    ensures r.x != "" && (AllDigits(r.x) <==> e.x >= 0)
    ensures r.y != "" && (AllDigits(r.y) <==> e.y >= 0)
    ensures r.width != "" && (AllDigits(r.width) <==> e.content.width >= 0)
    ensures r.height != "" && (AllDigits(r.height) <==> e.content.height >= 0)
    ensures r.imgType == e.content.imgType && (if r.imgType == Url then r.url else r.base64) == e.content.img
  {
    var c := e.content;
    ImageForm(IntToString(e.x), IntToString(e.y), IntToString(c.width), IntToString(c.height),
              if c.imgType == Url then c.img else "",
              if c.imgType == Url then "" else c.img,
              c.imgType, c.img, c.alt)
  }

  /** The form after the `parseInt` calls and the choice of image that open `handleSubmit`. */
  datatype ImageInput = ImageInput(
    x: Option<int>, y: Option<int>, width: Option<int>, height: Option<int>,
    img: string, imgType: ImgType, alt: string)

  function Parse(f: ImageForm): (p: ImageInput)
    ensures AllDigits(f.x) ==> p.x == if f.x == "" then None else Some(DigitsValue(f.x) as int)
    ensures AllDigits(f.y) ==> p.y == if f.y == "" then None else Some(DigitsValue(f.y) as int)
    ensures AllDigits(f.width) ==> p.width == if f.width == "" then None else Some(DigitsValue(f.width) as int)
    ensures AllDigits(f.height) ==> p.height == if f.height == "" then None else Some(DigitsValue(f.height) as int)
  {
    ParseIntOfField(f.x);
    ParseIntOfField(f.y);
    ParseIntOfField(f.width);
    ParseIntOfField(f.height);
    ImageInput(ParseInt(f.x), ParseInt(f.y), ParseInt(f.width), ParseInt(f.height),
               if f.imgType == Url then f.url else f.base64, f.imgType, f.alt)
  }

  /** The checks of `handleSubmit`, in their order: size always, position only in edit mode. */
  function Checks(mode: Mode, p: ImageInput): seq<(FieldError, bool)> {
    if mode == Edit then [(InvalidWidth, InPercent(p.width)), (InvalidHeight, InPercent(p.height)), (InvalidX, InPercent(p.x)), (InvalidY, InPercent(p.y))]
    else [(InvalidWidth, InPercent(p.width)), (InvalidHeight, InPercent(p.height))]
  }

  predicate ValidContent(c: ElementContent) {
    c.ImageContent? && 0 <= c.width <= 100 && 0 <= c.height <= 100
  }

  predicate ValidElement(e: SlideElement) {
    0 <= e.x <= 100 && 0 <= e.y <= 100 && ValidContent(e.content)
  }

  /**
   * `handleSubmit` past the parsing: the first failing check is reported;
   * otherwise create mode sends the payload, edit mode the whole element
   * under `elementId`, and a closed editor nothing.
   */
  function Submit(mode: Mode, p: ImageInput, presentationId: string, slideId: string, elementId: string): (r: Submission)
    ensures r.Invalid? <==> FirstFailure(Checks(mode, p)).Some?
    ensures r.Invalid? ==> r.error == FirstFailure(Checks(mode, p)).value
    ensures r.NoRequest? <==> !r.Invalid? && mode == Close
    ensures r.Send? ==> InPercent(p.width) && InPercent(p.height)
    ensures r.Send? && mode == Create ==>
      r.request == CreateSlideElement(presentationId, slideId, ImageContent(p.width.value, p.height.value, p.img, p.imgType, p.alt))
    ensures r.Send? && mode == Edit ==> InPercent(p.x) && InPercent(p.y)
    ensures r.Send? && mode == Edit ==>
      r.request == UpdateSlideElement(presentationId, slideId, elementId,
        SlideElement(elementId, p.x.value, p.y.value, ImageContent(p.width.value, p.height.value, p.img, p.imgType, p.alt)))
  {
    var cs := Checks(mode, p);
    if !InPercent(p.width) then FirstFailureIs(cs, 0); Invalid(InvalidWidth)
    else if !InPercent(p.height) then FirstFailureIs(cs, 1); Invalid(InvalidHeight)
    else
      var content := ImageContent(p.width.value, p.height.value, p.img, p.imgType, p.alt);
      match mode
      case Create => Send(CreateSlideElement(presentationId, slideId, content))
      case Edit =>
        if !InPercent(p.x) then FirstFailureIs(cs, 2); Invalid(InvalidX)
        else if !InPercent(p.y) then FirstFailureIs(cs, 3); Invalid(InvalidY)
        else Send(UpdateSlideElement(presentationId, slideId, elementId, SlideElement(elementId, p.x.value, p.y.value, content)))
      case Close => NoRequest
  }

  /** What the editor sends is a valid image element; a create never depends on the position fields. */
  lemma SentIsValid(mode: Mode, p: ImageInput, presentationId: string, slideId: string, elementId: string)
    ensures var r := Submit(mode, p, presentationId, slideId, elementId);
      r.Send? ==> if mode == Create then ValidContent(r.request.content) else ValidElement(r.request.element) && r.request.element.id == elementId
    ensures forall x, y :: Submit(Create, p.(x := x, y := y), presentationId, slideId, elementId) == Submit(Create, p, presentationId, slideId, elementId)
  {
  }

  /** The saved image is the URL or the upload, whichever the type selects; the other field is ignored. */
  lemma ImageFollowsType(f: ImageForm, other: string)
    ensures f.imgType == Url ==> Parse(f).img == f.url && Parse(f.(base64 := other)) == Parse(f)
    ensures f.imgType == Base64 ==> Parse(f).img == f.base64 && Parse(f.(url := other)) == Parse(f)
  {
  }

  /** The parsed form of an element loaded unchanged. */
  function InputOf(e: SlideElement): ImageInput
    requires e.content.ImageContent?
  {
    ImageInput(Some(e.x), Some(e.y), Some(e.content.width), Some(e.content.height), e.content.img, e.content.imgType, e.content.alt)
  }

  /** Every number loaded into the form parses back to itself, and the image is read back from the field it went to. */
  lemma ParseFormOf(e: SlideElement)
    requires e.content.ImageContent?
    ensures Parse(FormOf(e)) == InputOf(e)
  {
    ParseIntOfIntToString(e.x);
    ParseIntOfIntToString(e.y);
    ParseIntOfIntToString(e.content.width);
    ParseIntOfIntToString(e.content.height);
  }

  lemma SubmitInputOf(e: SlideElement, presentationId: string, slideId: string)
    requires e.content.ImageContent?
    ensures Submit(Edit, InputOf(e), presentationId, slideId, e.id).Send? <==> ValidElement(e)
    ensures ValidElement(e) ==>
      Submit(Edit, InputOf(e), presentationId, slideId, e.id) == Send(UpdateSlideElement(presentationId, slideId, e.id, e))
  {
  }

  /**
   * Loading an element and saving it untouched gives back the same element
   * exactly when the element is valid; an invalid one is refused.
   */
  lemma EditRoundTrip(e: SlideElement, presentationId: string, slideId: string)
    requires e.content.ImageContent?
    ensures Submit(Edit, Parse(FormOf(e)), presentationId, slideId, e.id).Send? <==> ValidElement(e)
    ensures ValidElement(e) ==>
      Submit(Edit, Parse(FormOf(e)), presentationId, slideId, e.id) == Send(UpdateSlideElement(presentationId, slideId, e.id, e))
  {
    ParseFormOf(e);
    SubmitInputOf(e, presentationId, slideId);
  }

  class ImageElementModal {
    var x: string
    var y: string
    var width: string
    var height: string
    var url: string
    var base64: string
    var imgType: ImgType
    var currentImg: string
    var alt: string

    function Form(): ImageForm
      reads this
    {
      ImageForm(x, y, width, height, url, base64, imgType, currentImg, alt)
    }

    /** Every text field starts empty and the type is 'url'. */
    constructor ()
      ensures Form() == EmptyImageForm
    {
      x, y, width, height, url, base64, imgType, currentImg, alt := "", "", "", "", "", "", Url, "", "";
    }

    /**
     * The load effect: nothing without a slide or when closed; create mode
     * clears the text fields; edit mode loads the image element with
     * `elementId` when there is one.
     */
    method Load(mode: Mode, slide: Option<Slide>, elementId: string)
      modifies this
      ensures var found := if slide.Some? then FindElement(slide.value.elements, elementId) else None;
        Form() ==
          if slide.None? || mode == Close then old(Form())
          else if mode == Create then Cleared(old(Form()))
          else if found.Some? && found.value.content.ImageContent? then FormOf(found.value)
          else old(Form())
    {
      if slide.None? || mode == Close {
        return;
      }
      if mode == Create {
        SetForm(Cleared(Form()));
        return;
      }
      var found := FindElement(slide.value.elements, elementId);
      if found.Some? && found.value.content.ImageContent? {
        SetForm(FormOf(found.value));
      }
    }

    /** Sets every field at once, as a run of setters in one effect does. */
    method SetForm(f: ImageForm)
      modifies this
      ensures Form() == f
    {
      x, y, width, height, url, base64, imgType, currentImg, alt := f.x, f.y, f.width, f.height, f.url, f.base64, f.imgType, f.currentImg, f.alt;
    }

    /** A `handleChange*` handler for a text field: taken only if its filter accepts the value. */
    method Change(field: ImageField, value: string)
      modifies this
      ensures Form() == if Accepts(field, value) then Set(old(Form()), field, value) else old(Form())
    {
      if !Accepts(field, value) {
        return;
      }
      match field
      case X => x := value;
      case Y => y := value;
      case Width => width := value;
      case Height => height := value;
      case UrlText => url := value;
      case Alt => alt := value;
    }

    /** `handleChangeImgType`. */
    method ChangeImgType(t: ImgType)
      modifies this
      ensures Form() == old(Form()).(imgType := t)
    {
      imgType := t;
    }

    /**
     * `handleImageUpload`: a converted file becomes both the base64 field
     * and the preview; a failed conversion changes nothing.
     */
    method Upload(converted: Option<string>)
      modifies this
      ensures Form() == if converted.Some? then old(Form()).(base64 := converted.value, currentImg := converted.value) else old(Form())
    {
      if converted.Some? {
        base64, currentImg := converted.value, converted.value;
      }
    }

    /** `handleSubmit`: the fields are left as they are; the editor closes when the store call succeeds. */
    method HandleSubmit(mode: Mode, presentationId: string, slideId: string, elementId: string, remoteOk: bool)
      returns (r: Submission, closed: bool)
      ensures r == Submit(mode, Parse(Form()), presentationId, slideId, elementId)
      ensures closed <==> r.Send? && remoteOk
    {
      r := Submit(mode, Parse(Form()), presentationId, slideId, elementId);
      closed := r.Send? && remoteOk;
    }
  }
}
