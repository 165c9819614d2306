/**
 * The code element editor. Position, size and font size take digits only;
 * a language must be chosen. The font size is never checked: a blank one
 * is stored as `NaN` (`None`), and an element holding `NaN` loads back as
 * the text "NaN", which parses to `NaN` again.
 */
module CodeElement {
  import opened Wrappers
  import opened JsString
  import opened Document
  import opened ElementForm

  datatype CodeForm = CodeForm(
    x: string, y: string, width: string, height: string,
    language: string, fontSize: string, code: string)

  const EmptyCodeForm := CodeForm("", "", "", "", "", "", "")

  /** The fields with a change handler. */
  datatype CodeField = X | Y | Width | Height | Language | FontSize | Code

  /** Numbers take digits only; the code and the selected language anything. */
  predicate Accepts(field: CodeField, value: string) {
    match field
    case Language => true
    case Code => true
    case _ => AllDigits(value)
  }

  function Set(f: CodeForm, field: CodeField, value: string): CodeForm {
    match field
    case X => f.(x := value)
    case Y => f.(y := value)
    case Width => f.(width := value)
    case Height => f.(height := value)
    case Language => f.(language := value)
    case FontSize => f.(fontSize := value)
    case Code => f.(code := value)
  }

  /** `n.toString()` for a number that may be `NaN`. */
  function NumberToString(n: Option<int>): string {
    match n
    case None => "NaN"
    case Some(i) => IntToString(i)
  }

  /** The fields an existing code element loads into. */
  function FormOf(e: SlideElement): (r: CodeForm)
    requires e.content.CodeContent?
    ensures r.x != "" && (AllDigits(r.x) <==> e.x >= 0)
    ensures r.y != "" && (AllDigits(r.y) <==> e.y >= 0)
    ensures r.width != "" && (AllDigits(r.width) <==> e.content.width >= 0)
    ensures r.height != "" && (AllDigits(r.height) <==> e.content.height >= 0)
    ensures e.content.codeFontSize.None? ==> r.fontSize == "NaN"
    ensures e.content.codeFontSize.Some? ==> r.fontSize != "" && (AllDigits(r.fontSize) <==> e.content.codeFontSize.value >= 0)
  {
    var c := e.content;
    CodeForm(IntToString(e.x), IntToString(e.y), IntToString(c.width), IntToString(c.height),
             c.language, NumberToString(c.codeFontSize), c.code)
  }

  /** The form after the `parseInt` calls that open `handleSubmit`. */
  datatype CodeInput = CodeInput(
    x: Option<int>, y: Option<int>, width: Option<int>, height: Option<int>,
    language: string, fontSize: Option<int>, code: string)

  function Parse(f: CodeForm): (p: CodeInput)
    ensures AllDigits(f.x) ==> p.x == if f.x == "" then None else Some(DigitsValue(f.x) as int)
    ensures AllDigits(f.y) ==> p.y == if f.y == "" then None else Some(DigitsValue(f.y) as int)
    ensures AllDigits(f.width) ==> p.width == if f.width == "" then None else Some(DigitsValue(f.width) as int)
    ensures AllDigits(f.height) ==> p.height == if f.height == "" then None else Some(DigitsValue(f.height) as int)
    ensures AllDigits(f.fontSize) ==> p.fontSize == if f.fontSize == "" then None else Some(DigitsValue(f.fontSize) as int)
  {
    ParseIntOfField(f.x);
    ParseIntOfField(f.y);
    ParseIntOfField(f.width);
    ParseIntOfField(f.height);
    ParseIntOfField(f.fontSize);
    CodeInput(ParseInt(f.x), ParseInt(f.y), ParseInt(f.width), ParseInt(f.height), f.language, ParseInt(f.fontSize), f.code)
  }

  /** The checks of `handleSubmit`, in their order: size and language always, position only in edit mode. */
  function Checks(mode: Mode, p: CodeInput): seq<(FieldError, bool)> {
    if mode == Edit then [(InvalidWidth, InPercent(p.width)), (InvalidHeight, InPercent(p.height)), (NoLanguage, p.language != ""), (InvalidX, InPercent(p.x)), (InvalidY, InPercent(p.y))]
    else [(InvalidWidth, InPercent(p.width)), (InvalidHeight, InPercent(p.height)), (NoLanguage, p.language != "")]
  }

  predicate ValidContent(c: ElementContent) {
    c.CodeContent? && 0 <= c.width <= 100 && 0 <= c.height <= 100 && c.language != ""
  }

  predicate ValidElement(e: SlideElement) {
    0 <= e.x <= 100 && 0 <= e.y <= 100 && ValidContent(e.content)
  }

  /**
   * `handleSubmit` past the parsing: the first failing check is reported;
   * otherwise create mode sends the payload, edit mode the whole element
   * under `elementId`, and a closed editor nothing. The font size is sent
   * as parsed, `NaN` included.
   */
  function Submit(mode: Mode, p: CodeInput, presentationId: string, slideId: string, elementId: string): (r: Submission)
    ensures r.Invalid? <==> FirstFailure(Checks(mode, p)).Some?
    ensures r.Invalid? ==> r.error == FirstFailure(Checks(mode, p)).value
    ensures r.NoRequest? <==> !r.Invalid? && mode == Close
    ensures r.Send? ==> InPercent(p.width) && InPercent(p.height)
    ensures r.Send? && mode == Create ==>
      r.request == CreateSlideElement(presentationId, slideId, CodeContent(p.width.value, p.height.value, p.code, p.fontSize, p.language))
    ensures r.Send? && mode == Edit ==> InPercent(p.x) && InPercent(p.y)
    ensures r.Send? && mode == Edit ==>
      r.request == UpdateSlideElement(presentationId, slideId, elementId,
        SlideElement(elementId, p.x.value, p.y.value, CodeContent(p.width.value, p.height.value, p.code, p.fontSize, p.language)))
  {
    var cs := Checks(mode, p);
    if !InPercent(p.width) then FirstFailureIs(cs, 0); Invalid(InvalidWidth)
    else if !InPercent(p.height) then FirstFailureIs(cs, 1); Invalid(InvalidHeight)
    else if p.language == "" then FirstFailureIs(cs, 2); Invalid(NoLanguage)
    else
      var content := CodeContent(p.width.value, p.height.value, p.code, p.fontSize, p.language);
      match mode
      case Create => Send(CreateSlideElement(presentationId, slideId, content))
      case Edit =>
        if !InPercent(p.x) then FirstFailureIs(cs, 3); Invalid(InvalidX)
        else if !InPercent(p.y) then FirstFailureIs(cs, 4); Invalid(InvalidY)
        else Send(UpdateSlideElement(presentationId, slideId, elementId, SlideElement(elementId, p.x.value, p.y.value, content)))
      case Close => NoRequest
  }

  /**
   * What the editor sends is a valid code element; a create never depends
   * on the position fields, and whether a form is accepted never depends on
   * its font size.
   */
  lemma SentIsValid(mode: Mode, p: CodeInput, presentationId: string, slideId: string, elementId: string)
    ensures var r := Submit(mode, p, presentationId, slideId, elementId);
      r.Send? ==> if mode == Create then ValidContent(r.request.content) else ValidElement(r.request.element) && r.request.element.id == elementId
    ensures forall x, y :: Submit(Create, p.(x := x, y := y), presentationId, slideId, elementId) == Submit(Create, p, presentationId, slideId, elementId)
    ensures forall n :: Submit(mode, p.(fontSize := n), presentationId, slideId, elementId).Send? == Submit(mode, p, presentationId, slideId, elementId).Send?
  {
  }

  /** The parsed form of an element loaded unchanged. */
  function InputOf(e: SlideElement): CodeInput
    requires e.content.CodeContent?
  {
    CodeInput(Some(e.x), Some(e.y), Some(e.content.width), Some(e.content.height), e.content.language, e.content.codeFontSize, e.content.code)
  }

  /** Every number loaded into the form parses back to itself, `NaN` included. */
  lemma ParseFormOf(e: SlideElement)
    requires e.content.CodeContent?
    ensures Parse(FormOf(e)) == InputOf(e)
  {
    ParseIntOfIntToString(e.x);
    ParseIntOfIntToString(e.y);
    ParseIntOfIntToString(e.content.width);
    ParseIntOfIntToString(e.content.height);
    match e.content.codeFontSize
    case None => ParseIntOfNaN();
    case Some(n) => ParseIntOfIntToString(n);
  }

  lemma SubmitInputOf(e: SlideElement, presentationId: string, slideId: string)
    requires e.content.CodeContent?
    ensures Submit(Edit, InputOf(e), presentationId, slideId, e.id).Send? <==> ValidElement(e)
    ensures ValidElement(e) ==>
      Submit(Edit, InputOf(e), presentationId, slideId, e.id) == Send(UpdateSlideElement(presentationId, slideId, e.id, e))
  {
  }

  /**
   * Loading an element and saving it untouched gives back the same element
   * exactly when the element is valid; an invalid one is refused.
   */
  lemma EditRoundTrip(e: SlideElement, presentationId: string, slideId: string)
    requires e.content.CodeContent?
    ensures Submit(Edit, Parse(FormOf(e)), presentationId, slideId, e.id).Send? <==> ValidElement(e)
    ensures ValidElement(e) ==>
      Submit(Edit, Parse(FormOf(e)), presentationId, slideId, e.id) == Send(UpdateSlideElement(presentationId, slideId, e.id, e))
  {
    ParseFormOf(e);
    SubmitInputOf(e, presentationId, slideId);
  }

  class CodeElementModal {
    var x: string
    var y: string
    var width: string
    var height: string
    var language: string
    var fontSize: string
    var code: string

    function Form(): CodeForm
      reads this
    {
      CodeForm(x, y, width, height, language, fontSize, code)
    }

    /** Every field starts empty; no language is chosen. */
    constructor ()
      ensures Form() == EmptyCodeForm
    {
      x, y, width, height, language, fontSize, code := "", "", "", "", "", "", "";
    }

    /**
     * The load effect: nothing without a slide or when closed; create mode
     * clears every field; edit mode loads the code element with `elementId`
     * when there is one.
     */
    method Load(mode: Mode, slide: Option<Slide>, elementId: string)
      modifies this
      ensures var found := if slide.Some? then FindElement(slide.value.elements, elementId) else None;
        Form() ==
          if slide.None? || mode == Close then old(Form())
          else if mode == Create then EmptyCodeForm
          else if found.Some? && found.value.content.CodeContent? then FormOf(found.value)
          else old(Form())
    {
      if slide.None? || mode == Close {
        return;
      }
      if mode == Create {
        SetForm(EmptyCodeForm);
        return;
      }
      var found := FindElement(slide.value.elements, elementId);
      if found.Some? && found.value.content.CodeContent? {
        SetForm(FormOf(found.value));
      }
    }

    /** Sets every field at once, as a run of setters in one effect does. */
    method SetForm(f: CodeForm)
      modifies this
      ensures Form() == f
    {
      x, y, width, height, language, fontSize, code := f.x, f.y, f.width, f.height, f.language, f.fontSize, f.code;
    }

    /** A change handler: the value is taken only if the field's filter accepts it. */
    method Change(field: CodeField, value: string)
      modifies this
      ensures Form() == if Accepts(field, value) then Set(old(Form()), field, value) else old(Form())
    {
      if !Accepts(field, value) {
        return;
      }
      match field
      case X => x := value;
      case Y => y := value;
      case Width => width := value;
      case Height => height := value;
      case Language => language := value;
      case FontSize => fontSize := value;
      case Code => code := value;
    }

    /** `handleSubmit`: the fields are left as they are; the editor closes when the store call succeeds. */
    method HandleSubmit(mode: Mode, presentationId: string, slideId: string, elementId: string, remoteOk: bool)
      returns (r: Submission, closed: bool)
      ensures r == Submit(mode, Parse(Form()), presentationId, slideId, elementId)
      ensures closed <==> r.Send? && remoteOk
    {
      r := Submit(mode, Parse(Form()), presentationId, slideId, elementId);
      closed := r.Send? && remoteOk;
    }
  }
}
