/**
 * The text element editor. Its seven fields are strings; the numeric ones
 * accept only digits and the colour only text starting with '#'. Opening
 * it in edit mode loads an element; submitting checks the fields in a fixed
 * order and asks the store to create or update an element, then clears the
 * fields whatever the store answers.
 */
module TextElement {
  import opened Wrappers
  import opened JsString
  import opened Document
  import opened ElementForm

  datatype TextForm = TextForm(
    x: string, y: string, width: string, height: string,
    text: string, fontSize: string, color: string)

  const EmptyTextForm := TextForm("", "", "", "", "", "", "")

  /** The fields with a `handleChange*` handler. */
  datatype TextField = X | Y | Width | Height | Text | FontSize | Color

  /** The input filter of each handler: digits, a leading '#', or anything for the text. */
  predicate Accepts(field: TextField, value: string) {
    match field
    case Text => true
    case Color => StartsWith(value, "#")
    case _ => AllDigits(value)
  }

  function Set(f: TextForm, field: TextField, value: string): TextForm {
    match field
    case X => f.(x := value)
    case Y => f.(y := value)
    case Width => f.(width := value)
    case Height => f.(height := value)
    case Text => f.(text := value)
    case FontSize => f.(fontSize := value)
    case Color => f.(color := value)
  }

  /** The numeric fields hold digits only. */
  predicate NumbersAreDigits(f: TextForm) {
    AllDigits(f.x) && AllDigits(f.y) && AllDigits(f.width) && AllDigits(f.height) && AllDigits(f.fontSize)
  }

  /**
   * The filters keep the numeric fields digit-only, so on a form reached by
   * typing a size check passes exactly when the field is non-empty with a
   * value of at most 100.
   */
  lemma FiltersKeepDigits(f: TextForm, field: TextField, value: string)
    requires NumbersAreDigits(f)
    ensures Accepts(field, value) ==> NumbersAreDigits(Set(f, field, value))
    ensures InPercent(ParseInt(f.width)) <==> f.width != "" && DigitsValue(f.width) <= 100
    ensures ParseInt(f.fontSize).Some? <==> f.fontSize != ""
  {
    DigitFieldInPercent(f.width);
    ParseIntOfDigits(f.fontSize);
  }

  /** The fields an existing text element loads into: numbers through `toString()`. */
  function FormOf(e: SlideElement): (r: TextForm)
    requires e.content.TextContent?
    ensures r.x != "" && (AllDigits(r.x) <==> e.x >= 0)
    ensures r.y != "" && (AllDigits(r.y) <==> e.y >= 0)
    ensures r.width != "" && (AllDigits(r.width) <==> e.content.width >= 0)
    ensures r.height != "" && (AllDigits(r.height) <==> e.content.height >= 0)
    ensures r.fontSize != "" && (AllDigits(r.fontSize) <==> e.content.fontSize >= 0)
    ensures r.text == e.content.text && r.color == e.content.color
  {
    var c := e.content;
    TextForm(IntToString(e.x), IntToString(e.y), IntToString(c.width), IntToString(c.height),
             c.text, IntToString(c.fontSize), c.color)
  }

  /** The form after the `parseInt` calls that open `handleSubmit`; `None` is `NaN`. */
  datatype TextInput = TextInput(
    x: Option<int>, y: Option<int>, width: Option<int>, height: Option<int>,
    fontSize: Option<int>, text: string, color: string)

  function Parse(f: TextForm): (p: TextInput)
    ensures AllDigits(f.x) ==> p.x == if f.x == "" then None else Some(DigitsValue(f.x) as int)
    ensures AllDigits(f.y) ==> p.y == if f.y == "" then None else Some(DigitsValue(f.y) as int)
    ensures AllDigits(f.width) ==> p.width == if f.width == "" then None else Some(DigitsValue(f.width) as int)
    ensures AllDigits(f.height) ==> p.height == if f.height == "" then None else Some(DigitsValue(f.height) as int)
    ensures AllDigits(f.fontSize) ==> p.fontSize == if f.fontSize == "" then None else Some(DigitsValue(f.fontSize) as int)
  {
    ParseIntOfField(f.x);
    ParseIntOfField(f.y);
    ParseIntOfField(f.width);
    ParseIntOfField(f.height);
    ParseIntOfField(f.fontSize);
    TextInput(ParseInt(f.x), ParseInt(f.y), ParseInt(f.width), ParseInt(f.height), ParseInt(f.fontSize), f.text, f.color)
  }

  /** The checks of `handleSubmit`, in their order. */
  function Checks(p: TextInput): seq<(FieldError, bool)> {
    [ (InvalidX, InPercent(p.x)),
      (InvalidY, InPercent(p.y)),
      (InvalidWidth, InPercent(p.width)),
      (InvalidHeight, InPercent(p.height)),
      (InvalidFontSize, p.fontSize.Some?),
      (ColorWithoutHash, StartsWith(p.color, "#")),
      (EmptyText, p.text != "") ]
  }

  /** A text element every check accepts. */
  predicate ValidContent(c: ElementContent) {
    c.TextContent? && 0 <= c.width <= 100 && 0 <= c.height <= 100 && StartsWith(c.color, "#") && c.text != ""
  }

  predicate ValidElement(e: SlideElement) {
    0 <= e.x <= 100 && 0 <= e.y <= 100 && ValidContent(e.content)
  }

  /** The early-return chain of `handleSubmit`: the error of the first check that fails, tested in source order. */
  function Validate(p: TextInput): (r: Option<FieldError>)
    ensures r == FirstFailure(Checks(p))
  {
    var cs := Checks(p);
    if !InPercent(p.x) then FirstFailureIs(cs, 0); Some(InvalidX)
    else if !InPercent(p.y) then FirstFailureIs(cs, 1); Some(InvalidY)
    else if !InPercent(p.width) then FirstFailureIs(cs, 2); Some(InvalidWidth)
    else if !InPercent(p.height) then FirstFailureIs(cs, 3); Some(InvalidHeight)
    else if p.fontSize.None? then FirstFailureIs(cs, 4); Some(InvalidFontSize)
    else if !StartsWith(p.color, "#") then FirstFailureIs(cs, 5); Some(ColorWithoutHash)
    else if p.text == "" then FirstFailureIs(cs, 6); Some(EmptyText)
    else None
  }

  /**
   * `handleSubmit` past the parsing: the first failing check is reported and
   * nothing is sent; otherwise create mode sends the payload without
   * position, edit mode the whole element under `elementId`, and a closed
   * editor nothing.
   */
  function Submit(mode: Mode, p: TextInput, presentationId: string, slideId: string, elementId: string): (r: Submission)
    ensures r.Invalid? <==> FirstFailure(Checks(p)).Some?
    ensures r.Invalid? ==> r.error == FirstFailure(Checks(p)).value
    ensures r.NoRequest? <==> !r.Invalid? && mode == Close
    ensures !r.Invalid? ==> InPercent(p.x) && InPercent(p.y) && InPercent(p.width) && InPercent(p.height) && p.fontSize.Some?
    ensures r.Send? && mode == Create ==>
      r.request == CreateSlideElement(presentationId, slideId,
        TextContent(p.width.value, p.height.value, p.text, p.fontSize.value, p.color))
    ensures r.Send? && mode == Edit ==>
      r.request == UpdateSlideElement(presentationId, slideId, elementId,
        SlideElement(elementId, p.x.value, p.y.value, TextContent(p.width.value, p.height.value, p.text, p.fontSize.value, p.color)))
  {
    match Validate(p)
    case Some(e) => Invalid(e)
    case None =>
      var cs := Checks(p);
      assert cs[0].1 && cs[1].1 && cs[2].1 && cs[3].1 && cs[4].1;
      var content := TextContent(p.width.value, p.height.value, p.text, p.fontSize.value, p.color);
      match mode
      case Create => Send(CreateSlideElement(presentationId, slideId, content))
      case Edit => Send(UpdateSlideElement(presentationId, slideId, elementId, SlideElement(elementId, p.x.value, p.y.value, content)))
      case Close => NoRequest
  }

  /** Whatever the form held, what the editor sends is a valid text element. */
  lemma SentIsValid(mode: Mode, p: TextInput, presentationId: string, slideId: string, elementId: string)
    ensures var r := Submit(mode, p, presentationId, slideId, elementId);
      r.Send? ==> if mode == Create then ValidContent(r.request.content) else ValidElement(r.request.element) && r.request.element.id == elementId
  {
  }

  /** The parsed form of an element loaded unchanged. */
  function InputOf(e: SlideElement): TextInput
    requires e.content.TextContent?
  {
    TextInput(Some(e.x), Some(e.y), Some(e.content.width), Some(e.content.height),
              Some(e.content.fontSize), e.content.text, e.content.color)
  }

  /** Every number loaded into the form parses back to itself. */
  lemma ParseFormOf(e: SlideElement)
    requires e.content.TextContent?
    ensures Parse(FormOf(e)) == InputOf(e)
  {
    ParseIntOfIntToString(e.x);
    ParseIntOfIntToString(e.y);
    ParseIntOfIntToString(e.content.width);
    ParseIntOfIntToString(e.content.height);
    ParseIntOfIntToString(e.content.fontSize);
  }

  lemma SubmitInputOf(e: SlideElement, presentationId: string, slideId: string)
    requires e.content.TextContent?
    ensures Submit(Edit, InputOf(e), presentationId, slideId, e.id).Send? <==> ValidElement(e)
    ensures ValidElement(e) ==>
      Submit(Edit, InputOf(e), presentationId, slideId, e.id) == Send(UpdateSlideElement(presentationId, slideId, e.id, e))
  {
  }

  /**
   * Loading an element and saving it untouched gives back the same element
   * exactly when the element is valid; an invalid one is refused.
   */
  lemma EditRoundTrip(e: SlideElement, presentationId: string, slideId: string)
    requires e.content.TextContent?
    ensures Submit(Edit, Parse(FormOf(e)), presentationId, slideId, e.id).Send? <==> ValidElement(e)
    ensures ValidElement(e) ==>
      Submit(Edit, Parse(FormOf(e)), presentationId, slideId, e.id) == Send(UpdateSlideElement(presentationId, slideId, e.id, e))
  {
    ParseFormOf(e);
    SubmitInputOf(e, presentationId, slideId);
  }

  /**
   * As written, the position is checked before the mode split although its
   * inputs are shown only in edit mode: a create from fields never given a
   * position is always refused with 'Invalid x coordinate'.
   */
  lemma CreateWithoutPositionRefused(width: string, height: string, text: string, fontSize: string, color: string,
                                     presentationId: string, slideId: string, elementId: string)
    ensures Submit(Create, Parse(TextForm("", "", width, height, text, fontSize, color)), presentationId, slideId, elementId)
         == Invalid(InvalidX)
  {
    assert ParseInt("") == None by {
      assert TrimStart("") == "";
    }
  }

  /** The checks with the position moved into edit mode, as the other three editors do it. */
  function IntendedChecks(mode: Mode, p: TextInput): seq<(FieldError, bool)> {
    var content := [
      (InvalidWidth, InPercent(p.width)),
      (InvalidHeight, InPercent(p.height)),
      (InvalidFontSize, p.fontSize.Some?),
      (ColorWithoutHash, StartsWith(p.color, "#")),
      (EmptyText, p.text != "") ];
    if mode == Edit then content + [(InvalidX, InPercent(p.x)), (InvalidY, InPercent(p.y))] else content
  }

  /** The corrected chain: the content checks first, then the position in edit mode only. */
  function IntendedValidate(mode: Mode, p: TextInput): (r: Option<FieldError>)
    ensures r == FirstFailure(IntendedChecks(mode, p))
  {
    var cs := IntendedChecks(mode, p);
    if !InPercent(p.width) then FirstFailureIs(cs, 0); Some(InvalidWidth)
    else if !InPercent(p.height) then FirstFailureIs(cs, 1); Some(InvalidHeight)
    else if p.fontSize.None? then FirstFailureIs(cs, 2); Some(InvalidFontSize)
    else if !StartsWith(p.color, "#") then FirstFailureIs(cs, 3); Some(ColorWithoutHash)
    else if p.text == "" then FirstFailureIs(cs, 4); Some(EmptyText)
    else if mode != Edit then None
    else if !InPercent(p.x) then FirstFailureIs(cs, 5); Some(InvalidX)
    else if !InPercent(p.y) then FirstFailureIs(cs, 6); Some(InvalidY)
    else None
  }

  /**
   * `handleSubmit` with the position checked only when editing: the
   * corrected counterpart of `Submit`. A create no longer depends on the
   * position fields at all.
   */
  function IntendedSubmit(mode: Mode, p: TextInput, presentationId: string, slideId: string, elementId: string): (r: Submission)
    ensures r.Invalid? <==> FirstFailure(IntendedChecks(mode, p)).Some?
    ensures r.Invalid? ==> r.error == FirstFailure(IntendedChecks(mode, p)).value
  {
    match IntendedValidate(mode, p)
    case Some(e) => Invalid(e)
    case None =>
      var cs := IntendedChecks(mode, p);
      assert cs[0].1 && cs[1].1 && cs[2].1;
      var content := TextContent(p.width.value, p.height.value, p.text, p.fontSize.value, p.color);
      match mode
      case Create => Send(CreateSlideElement(presentationId, slideId, content))
      case Edit =>
        assert cs[5].1 && cs[6].1;
        Send(UpdateSlideElement(presentationId, slideId, elementId, SlideElement(elementId, p.x.value, p.y.value, content)))
      case Close => NoRequest
  }

  /** Corrected, a create does not depend on the position fields at all. */
  lemma IntendedCreateIgnoresPosition(p: TextInput, x: Option<int>, y: Option<int>, presentationId: string, slideId: string, elementId: string)
    ensures IntendedSubmit(Create, p.(x := x, y := y), presentationId, slideId, elementId)
         == IntendedSubmit(Create, p, presentationId, slideId, elementId)
  {
  }

  /**
   * The correction changes only create mode: a form sent as written is
   * sent unchanged, and in edit mode both send exactly the same forms.
   */
  lemma IntendedKeepsSentForms(mode: Mode, p: TextInput, presentationId: string, slideId: string, elementId: string)
    ensures Submit(mode, p, presentationId, slideId, elementId).Send? ==>
      IntendedSubmit(mode, p, presentationId, slideId, elementId) == Submit(mode, p, presentationId, slideId, elementId)
    ensures mode == Edit ==>
      (IntendedSubmit(mode, p, presentationId, slideId, elementId).Send? <==> Submit(mode, p, presentationId, slideId, elementId).Send?)
  {
  }

  class TextElementModal {
    var x: string
    var y: string
    var width: string
    var height: string
    var text: string
    var fontSize: string
    var color: string

    function Form(): TextForm
      reads this
    {
      TextForm(x, y, width, height, text, fontSize, color)
    }

    /** Every field starts empty. */
    constructor ()
      ensures Form() == EmptyTextForm
    {
      x, y, width, height, text, fontSize, color := "", "", "", "", "", "", "";
    }

    /**
     * The load effect: only in edit mode, on an existing slide, and when
     * the slide has a text element with `elementId`; otherwise the fields
     * keep what they hold (in create mode too).
     */
    method Load(mode: Mode, slide: Option<Slide>, elementId: string)
      modifies this
      ensures var found := if slide.Some? then FindElement(slide.value.elements, elementId) else None;
        Form() == if mode == Edit && found.Some? && found.value.content.TextContent? then FormOf(found.value) else old(Form())
    {
      if slide.None? || mode != Edit {
        return;
      }
      var found := FindElement(slide.value.elements, elementId);
      if found.Some? && found.value.content.TextContent? {
        SetForm(FormOf(found.value));
      }
    }

    /** A `handleChange*` handler: the value is taken only if the field's filter accepts it. */
    method Change(field: TextField, value: string)
      modifies this
      ensures Form() == if Accepts(field, value) then Set(old(Form()), field, value) else old(Form())
    {
      if !Accepts(field, value) {
        return;
      }
      match field
      case X => x := value;
      case Y => y := value;
      case Width => width := value;
      case Height => height := value;
      case Text => text := value;
      case FontSize => fontSize := value;
      case Color => color := value;
    }

    /** Sets every field at once, as a run of setters in one effect or handler does. */
    method SetForm(f: TextForm)
      modifies this
      ensures Form() == f
    {
      x, y, width, height, text, fontSize, color := f.x, f.y, f.width, f.height, f.text, f.fontSize, f.color;
    }

    /**
     * `handleSubmit`: a failed check leaves the fields as they are; past the
     * checks the store is called (or not, when closed), the editor closes on
     * success, and every field is cleared whatever the outcome.
     */
    method HandleSubmit(mode: Mode, presentationId: string, slideId: string, elementId: string, remoteOk: bool)
      returns (r: Submission, closed: bool)
      modifies this
      ensures r == Submit(mode, Parse(old(Form())), presentationId, slideId, elementId)
      ensures closed <==> r.Send? && remoteOk
      ensures Form() == if r.Invalid? then old(Form()) else EmptyTextForm
    {
      var input := Parse(Form());
      r := Submit(mode, input, presentationId, slideId, elementId);
      closed := r.Send? && remoteOk;
      if !r.Invalid? {
        SetForm(EmptyTextForm);
      }
    }
  }
}
