/**
 * The background fields shared by the slide settings and the presentation
 * settings dialogs: a chosen kind plus one group of fields per kind. Loading
 * fills only the group of the loaded background's kind; saving reads only
 * the group of the chosen kind, and any kind other than image or gradient
 * saves as a solid colour.
 */
module Backgrounds {
  import opened Wrappers
  import opened Document

  /** `Background['type']`: 'solid-color' | 'gradient' | 'image' | 'default'. */
  datatype BackgroundKind = SolidKind | GradientKind | ImageKind | DefaultKind

  datatype BackgroundForm = BackgroundForm(
    kind: BackgroundKind, solidColor: string, gradientFrom: string, gradientTo: string,
    imgUrl: string, imgBase64: string, imgType: ImgType)

  /** The initial state: a solid colour, empty fields, and 'base64' as the image type. */
  const InitialBackgroundForm := BackgroundForm(SolidKind, "", "", "", "", "", Base64)

  /** The text fields of the background group. */
  datatype BackgroundField = SolidColorText | GradientFrom | GradientTo | ImgUrl

  function Set(f: BackgroundForm, field: BackgroundField, value: string): BackgroundForm {
    match field
    case SolidColorText => f.(solidColor := value)
    case GradientFrom => f.(gradientFrom := value)
    case GradientTo => f.(gradientTo := value)
    case ImgUrl => f.(imgUrl := value)
  }

  function KindOf(b: Background): BackgroundKind {
    match b
    case SolidColor(_) => SolidKind
    case Gradient(_, _) => GradientKind
    case ImageFill(_, _) => ImageKind
    case DefaultBackground => DefaultKind
  }

  /**
   * The load effect's background part: the kind is taken over, and only the
   * fields of that kind are filled; the image goes to the field of its type
   * and the other image field is cleared.
   */
  function Load(f: BackgroundForm, b: Background): (r: BackgroundForm)
    ensures r.kind == KindOf(b)
    ensures !b.ImageFill? ==> r.imgUrl == f.imgUrl && r.imgBase64 == f.imgBase64 && r.imgType == f.imgType
    ensures !b.Gradient? ==> r.gradientFrom == f.gradientFrom && r.gradientTo == f.gradientTo
    ensures !b.SolidColor? ==> r.solidColor == f.solidColor
  {
    match b
    case ImageFill(img, t) =>
      if t == Url then f.(kind := ImageKind, imgUrl := img, imgBase64 := "", imgType := t)
      else f.(kind := ImageKind, imgUrl := "", imgBase64 := img, imgType := t)
    case Gradient(from, to) => f.(kind := GradientKind, gradientFrom := from, gradientTo := to)
    case SolidColor(c) => f.(kind := SolidKind, solidColor := c)
    case DefaultBackground => f.(kind := DefaultKind)
  }

  /** The background `handleSubmit` builds from the fields. */
  function Build(f: BackgroundForm): (b: Background)
    ensures b != DefaultBackground
    ensures f.kind == ImageKind ==> b == ImageFill(if f.imgType == Base64 then f.imgBase64 else f.imgUrl, f.imgType)
    ensures f.kind == GradientKind ==> b == Gradient(f.gradientFrom, f.gradientTo)
    ensures f.kind != ImageKind && f.kind != GradientKind ==> b == SolidColor(f.solidColor)
  {
    match f.kind
    case ImageKind => ImageFill(if f.imgType == Base64 then f.imgBase64 else f.imgUrl, f.imgType)
    case GradientKind => Gradient(f.gradientFrom, f.gradientTo)
    case _ => SolidColor(f.solidColor)
  }

  /**
   * Loading a background and saving it untouched gives it back, whatever
   * the fields held before; the slide default instead saves as the solid
   * colour left in the form.
   */
  lemma {:induction false} LoadBuildRoundTrip(f: BackgroundForm, b: Background)
    ensures b != DefaultBackground ==> Build(Load(f, b)) == b
    ensures b == DefaultBackground ==> Build(Load(f, b)) == SolidColor(f.solidColor)
  {
  }

  /** Only the fields of the chosen kind reach the saved background. */
  lemma BuildReadsChosenFields(f: BackgroundForm, field: BackgroundField, value: string)
    ensures f.kind == ImageKind && field != ImgUrl ==> Build(Set(f, field, value)) == Build(f)
    ensures f.kind == ImageKind && f.imgType == Base64 ==> Build(Set(f, field, value)) == Build(f)
    ensures f.kind == GradientKind && field != GradientFrom && field != GradientTo ==> Build(Set(f, field, value)) == Build(f)
    ensures f.kind != ImageKind && f.kind != GradientKind && field != SolidColorText ==> Build(Set(f, field, value)) == Build(f)
  {
  }
}

/** The slide settings dialog: the slide's font and background. */
module SlideSetting {
  import opened Wrappers
  import opened Document
  import opened Backgrounds

  /** The slide `handleSubmit` saves: the current slide with its font and background replaced. */
  function UpdatedSlide(slide: Slide, fontFamily: FontFamily, f: BackgroundForm): (r: Slide)
    ensures r.id == slide.id && r.elements == slide.elements
    ensures r.fontFamily == fontFamily && r.background == Build(f)
  {
    slide.(fontFamily := fontFamily, background := Build(f))
  }

  /** Opening the dialog on a slide with its own background and saving at once leaves the slide unchanged. */
  lemma SaveLoadedSlide(slide: Slide, f: BackgroundForm)
    requires slide.background != DefaultBackground
    ensures UpdatedSlide(slide, slide.fontFamily, Load(f, slide.background)) == slide
  {
    LoadBuildRoundTrip(f, slide.background);
  }

  /** The seven background hooks are grouped into `background`. */
  class SlideSettingModal {
    var fontFamily: FontFamily
    var background: BackgroundForm

    constructor ()
      ensures fontFamily == Roboto && background == InitialBackgroundForm
    {
      fontFamily := Roboto;
      background := InitialBackgroundForm;
    }

    /** The load effect: without a slide nothing changes; otherwise its font and background are loaded. */
    method Load(slide: Option<Slide>)
      modifies this
      ensures slide.None? ==> fontFamily == old(fontFamily) && background == old(background)
      ensures slide.Some? ==> fontFamily == slide.value.fontFamily && background == Backgrounds.Load(old(background), slide.value.background)
    {
      if slide.None? {
        return;
      }
      fontFamily := slide.value.fontFamily;
      background := Backgrounds.Load(background, slide.value.background);
    }

    method ChangeFontFamily(value: FontFamily)
      modifies this
      ensures fontFamily == value && background == old(background)
    {
      fontFamily := value;
    }

    method ChangeKind(kind: BackgroundKind)
      modifies this
      ensures fontFamily == old(fontFamily) && background == old(background).(kind := kind)
    {
      background := background.(kind := kind);
    }

    method ChangeImgType(t: ImgType)
      modifies this
      ensures fontFamily == old(fontFamily) && background == old(background).(imgType := t)
    {
      background := background.(imgType := t);
    }

    /** A text field's handler: no filter. */
    method Change(field: BackgroundField, value: string)
      modifies this
      ensures fontFamily == old(fontFamily) && background == Set(old(background), field, value)
    {
      background := Set(background, field, value);
    }

    /** `handleImageUpload`: a converted file becomes the base64 image; a failed one changes nothing. */
    method Upload(converted: Option<string>)
      modifies this
      ensures fontFamily == old(fontFamily)
      ensures background == if converted.Some? then old(background).(imgBase64 := converted.value) else old(background)
    {
      if converted.Some? {
        background := background.(imgBase64 := converted.value);
      }
    }

    /** `handleSubmit`: `updateSlide` at the slide's position; the dialog closes on success. */
    method HandleSubmit(presentationId: string, slideIndex: int, slide: Slide, remoteOk: bool)
      returns (request: StoreRequest, closed: bool)
      ensures request == UpdateSlide(presentationId, slideIndex, UpdatedSlide(slide, fontFamily, background))
      ensures closed == remoteOk
    {
      request := UpdateSlide(presentationId, slideIndex, UpdatedSlide(slide, fontFamily, background));
      closed := remoteOk;
    }
  }
}

/** The presentation settings dialog: name, description and background. */
module EditPresentation {
  import opened Wrappers
  import opened Document
  import opened Backgrounds

  /** The presentation `handleSubmit` saves: a copy with name, description and background replaced. */
  function UpdatedPresentation(p: Presentation, title: string, description: string, f: BackgroundForm): (r: Presentation)
    ensures r.name == title && r.description == description && r.background == Build(f)
    ensures r.(name := p.name, description := p.description, background := p.background) == p
  {
    p.(name := title, description := description, background := Build(f))
  }

  /** Opening the dialog and saving at once leaves a presentation with its own background unchanged. */
  lemma SaveLoadedPresentation(p: Presentation, f: BackgroundForm)
    requires p.background != DefaultBackground
    ensures UpdatedPresentation(p, p.name, p.description, Load(f, p.background)) == p
  {
    LoadBuildRoundTrip(f, p.background);
  }

  /** The seven background hooks are grouped into `background`. */
  class EditPresentationModal {
    var title: string
    var description: string
    var background: BackgroundForm

    constructor ()
      ensures title == "" && description == "" && background == InitialBackgroundForm
    {
      title, description := "", "";
      background := InitialBackgroundForm;
    }

    /** The load effect: without a presentation nothing changes; otherwise name, description and background are loaded. */
    method Load(p: Option<Presentation>)
      modifies this
      ensures p.None? ==> title == old(title) && description == old(description) && background == old(background)
      ensures p.Some? ==> title == p.value.name && description == p.value.description
      ensures p.Some? ==> background == Backgrounds.Load(old(background), p.value.background)
    {
      if p.None? {
        return;
      }
      title, description := p.value.name, p.value.description;
      background := Backgrounds.Load(background, p.value.background);
    }

    method ChangeTitle(value: string)
      modifies this
      ensures title == value && description == old(description) && background == old(background)
    {
      title := value;
    }

    method ChangeDescription(value: string)
      modifies this
      ensures title == old(title) && description == value && background == old(background)
    {
      description := value;
    }

    method ChangeKind(kind: BackgroundKind)
      modifies this
      ensures title == old(title) && description == old(description) && background == old(background).(kind := kind)
    {
      background := background.(kind := kind);
    }

    method ChangeImgType(t: ImgType)
      modifies this
      ensures title == old(title) && description == old(description) && background == old(background).(imgType := t)
    {
      background := background.(imgType := t);
    }

    /** A background text field's handler: no filter. */
    method Change(field: BackgroundField, value: string)
      modifies this
      ensures title == old(title) && description == old(description) && background == Set(old(background), field, value)
    {
      background := Set(background, field, value);
    }

    /** `handleImageUpload`: a converted file becomes the base64 image; a failed one changes nothing. */
    method Upload(converted: Option<string>)
      modifies this
      ensures title == old(title) && description == old(description)
      ensures background == if converted.Some? then old(background).(imgBase64 := converted.value) else old(background)
    {
      if converted.Some? {
        background := background.(imgBase64 := converted.value);
      }
    }

    /** `handleSubmit`: `updatePresentation` with the edited copy; the dialog closes on success. */
    method HandleSubmit(presentationId: string, p: Presentation, remoteOk: bool)
      returns (request: StoreRequest, closed: bool)
      ensures request == UpdatePresentation(presentationId, UpdatedPresentation(p, title, description, background))
      ensures closed == remoteOk
    {
      request := UpdatePresentation(presentationId, UpdatedPresentation(p, title, description, background));
      closed := remoteOk;
    }
  }
}
