/**
 * The video element editor. Numbers go through `parseFloat`, which is a
 * parameter here (see README); `toEmbdedUrl` turns the watch URL into the
 * URL the slide embeds, and is recomputed on every save, so the stored
 * `embdedUrl` field of the form never reaches the store.
 */
module VideoElement {
  import opened Wrappers
  import opened JsString
  import opened Document
  import opened ElementForm

  // ---------------------------------------------------------------------
  // toEmbdedUrl

  /** A match of `[?&]v=([^&]+)` starts at position `j` of `s`. */
  predicate VParamAt(s: string, j: int) {
    0 <= j && j + 3 < |s| && (s[j] == '?' || s[j] == '&') && s[j + 1] == 'v' && s[j + 2] == '=' && s[j + 3] != '&'
  }

  /** The length of the run of characters other than '&' that starts at `from`: the greedy `[^&]+`. */
  function RunLength(s: string, from: nat): (k: nat)
    requires from <= |s|
    ensures from + k <= |s|
    ensures forall i | from <= i < from + k :: s[i] != '&'
    ensures from + k == |s| || s[from + k] == '&'
    decreases |s| - from
  {
    if from < |s| && s[from] != '&' then 1 + RunLength(s, from + 1) else 0
  }

  /** The group of the leftmost match is captured at `j`. */
  predicate FirstVParamAt(s: string, from: int, j: int) {
    from <= j && VParamAt(s, j) && forall i | from <= i < j :: !VParamAt(s, i)
  }

  /** The captured video id of the leftmost match at or after `from`. */
  function VParamFrom(s: string, from: nat): (r: Option<string>)
    ensures r.None? <==> forall j | from <= j :: !VParamAt(s, j)
    ensures r.Some? ==> exists j :: FirstVParamAt(s, from, j) && r.value == s[j + 3..j + 3 + RunLength(s, j + 3)]
    ensures r.Some? ==> r.value != "" && '&' !in r.value
    decreases |s| - from
  {
    if from + 3 >= |s| then None
    else if VParamAt(s, from) then
      assert FirstVParamAt(s, from, from);
      var v := s[from + 3..from + 3 + RunLength(s, from + 3)];
      assert v[0] == s[from + 3];
      assert forall i | 0 <= i < |v| :: v[i] == s[from + 3 + i];
      Some(v)
    else
      var r := VParamFrom(s, from + 1);
      if r.Some? then
        var j :| FirstVParamAt(s, from + 1, j) && r.value == s[j + 3..j + 3 + RunLength(s, j + 3)];
        assert FirstVParamAt(s, from, j);
        r
      else r
  }

  /** `url.match(/[?&]v=([^&]+)/)?.[1]`. */
  function VParam(url: string): Option<string> { VParamFrom(url, 0) }

  const EmbedPath := "youtube.com/embed/"
  const EmbedPrefix := "https://www." + EmbedPath

  /**
   * `toEmbdedUrl(url)` with the editor's current `autoplay`: an embed URL is
   * kept; a URL with a `v` parameter becomes the embed URL of that video,
   * with the autoplay query when set; anything else gets its first
   * 'watch?v=' replaced by 'embed/'.
   */
  function ToEmbedUrl(url: string, autoplay: bool): (r: string)
    ensures Includes(url, EmbedPath) ==> r == url
    ensures !Includes(url, EmbedPath) && VParam(url).Some? ==> StartsWith(r, EmbedPrefix + VParam(url).value)
    ensures !Includes(url, EmbedPath) && VParam(url).None? ==> r == ReplaceFirst(url, "watch?v=", "embed/")
    ensures !autoplay && !Includes(url, EmbedPath) && VParam(url).Some? ==> r == EmbedPrefix + VParam(url).value + "?"
  {
    if Includes(url, EmbedPath) then url
    else
      match VParam(url)
      case Some(v) =>
        var r := EmbedPrefix + v + "?" + (if autoplay then "?autoplay=1&mute=1" else "");
        assert r[..|EmbedPrefix + v|] == EmbedPrefix + v;
        r
      case None => ReplaceFirst(url, "watch?v=", "embed/")
  }

  /** Any string that starts with the embed prefix counts as an embed URL. */
  lemma EmbedPrefixIncludesPath(r: string)
    requires StartsWith(r, EmbedPrefix)
    ensures Includes(r, EmbedPath)
  {
    assert r[12..12 + |EmbedPath|] == EmbedPrefix[12..] == EmbedPath;
    MatchIncludes(r, EmbedPath, 12);
  }

  /**
   * On embed URLs and on URLs with a `v` parameter the conversion is
   * idempotent: pasting an already converted URL into the editor stores it
   * unchanged. Other URLs are not covered (`ReplaceBranchNotIdempotent`).
   */
  lemma ToEmbedUrlIdempotent(url: string, autoplay: bool)
    requires Includes(url, EmbedPath) || VParam(url).Some?
    ensures ToEmbedUrl(ToEmbedUrl(url, autoplay), autoplay) == ToEmbedUrl(url, autoplay)
  {
    var r := ToEmbedUrl(url, autoplay);
    if !Includes(url, EmbedPath) {
      var v := VParam(url).value;
      assert (EmbedPrefix + v)[..|EmbedPrefix|] == EmbedPrefix;
      EmbedPrefixIncludesPath(r);
    }
  }

  /** A URL shorter than the embed path cannot include it. */
  lemma ShortUrlNotEmbed(url: string)
    requires |url| < |EmbedPath|
    ensures !Includes(url, EmbedPath)
  {
  }

  /** The example URL "watch?v=&watch?v=" has no `v` parameter: each "?v=" is followed by '&' or the end. */
  lemma NoVParamInDoubleWatch()
    ensures VParam("watch?v=&watch?v=") == None
  {
    var s := "watch?v=&watch?v=";
    assert VParamFrom(s, 14) == None;
    assert !VParamAt(s, 13) && !VParamAt(s, 12) && !VParamAt(s, 11) && !VParamAt(s, 10) && !VParamAt(s, 9);
    assert !VParamAt(s, 8) && !VParamAt(s, 7) && !VParamAt(s, 6) && !VParamAt(s, 5) && !VParamAt(s, 4);
    assert !VParamAt(s, 3) && !VParamAt(s, 2) && !VParamAt(s, 1) && !VParamAt(s, 0);
    assert VParamFrom(s, 13) == None;
    assert VParamFrom(s, 12) == None;
    assert VParamFrom(s, 11) == None;
    assert VParamFrom(s, 10) == None;
    assert VParamFrom(s, 9) == None;
    assert VParamFrom(s, 8) == None;
    assert VParamFrom(s, 7) == None;
    assert VParamFrom(s, 6) == None;
    assert VParamFrom(s, 5) == None;
    assert VParamFrom(s, 4) == None;
    assert VParamFrom(s, 3) == None;
    assert VParamFrom(s, 2) == None;
    assert VParamFrom(s, 1) == None;
  }

  /** Its conversion "embed/&watch?v=" has none either: its "?v=" ends the string. */
  lemma NoVParamInHalfConverted()
    ensures VParam("embed/&watch?v=") == None
  {
    var s := "embed/&watch?v=";
    assert VParamFrom(s, 12) == None;
    assert !VParamAt(s, 11) && !VParamAt(s, 10) && !VParamAt(s, 9) && !VParamAt(s, 8) && !VParamAt(s, 7);
    assert !VParamAt(s, 6) && !VParamAt(s, 5) && !VParamAt(s, 4) && !VParamAt(s, 3);
    assert !VParamAt(s, 2) && !VParamAt(s, 1) && !VParamAt(s, 0);
    assert VParamFrom(s, 11) == None;
    assert VParamFrom(s, 10) == None;
    assert VParamFrom(s, 9) == None;
    assert VParamFrom(s, 8) == None;
    assert VParamFrom(s, 7) == None;
    assert VParamFrom(s, 6) == None;
    assert VParamFrom(s, 5) == None;
    assert VParamFrom(s, 4) == None;
    assert VParamFrom(s, 3) == None;
    assert VParamFrom(s, 2) == None;
    assert VParamFrom(s, 1) == None;
  }

  /** The leftmost "watch?v=" of the example URL starts it. */
  lemma FirstWatchAtStart()
    ensures ReplaceFirst("watch?v=&watch?v=", "watch?v=", "embed/") == "embed/&watch?v="
  {
    var s := "watch?v=&watch?v=";
    assert s[0..8] == "watch?v=";
    assert IndexOf(s, "watch?v=") == Some(0);
    assert s[8..] == "&watch?v=";
  }

  /** In the converted URL the leftmost "watch?v=" is the second one, at position 7. */
  lemma SecondWatchAtSeven()
    ensures ReplaceFirst("embed/&watch?v=", "watch?v=", "embed/") == "embed/&embed/"
  {
    var t := "embed/&watch?v=";
    assert MatchAt(t, "watch?v=", 7);
    forall j | 0 <= j < 7
      ensures !MatchAt(t, "watch?v=", j)
    {
      assert t[j..j + 8][0] == t[j] != 'w';
    }
    assert IndexOf(t, "watch?v=") == Some(7);
    assert t[..7] == "embed/&" && t[15..] == "";
  }

  /**
   * Outside embed URLs and URLs with a `v` parameter, the conversion is not
   * idempotent: "watch?v=&watch?v=" becomes "embed/&watch?v=", and
   * converting that again replaces the second "watch?v=" too.
   */
  lemma ReplaceBranchNotIdempotent(autoplay: bool)
    ensures ToEmbedUrl("watch?v=&watch?v=", autoplay) == "embed/&watch?v="
    ensures ToEmbedUrl("embed/&watch?v=", autoplay) == "embed/&embed/"
  {
    ShortUrlNotEmbed("watch?v=&watch?v=");
    NoVParamInDoubleWatch();
    FirstWatchAtStart();
    ShortUrlNotEmbed("embed/&watch?v=");
    NoVParamInHalfConverted();
    SecondWatchAtSeven();
  }

  /**
   * As written, a watch URL with autoplay set gets two '?' in front of the
   * autoplay query, so the query's first key is '?autoplay' and YouTube
   * does not autoplay.
   */
  lemma AutoplayQueryDoubled(url: string)
    requires !Includes(url, EmbedPath) && VParam(url).Some?
    ensures IntendedToEmbedUrl(url, false) == EmbedPrefix + VParam(url).value + "?"
    ensures ToEmbedUrl(url, true) == IntendedToEmbedUrl(url, false) + "?autoplay=1&mute=1"
    ensures MatchAt(ToEmbedUrl(url, true), "??", |EmbedPrefix| + |VParam(url).value|)
  {
    var r := ToEmbedUrl(url, true);
    var j := |EmbedPrefix| + |VParam(url).value|;
    assert r[j] == '?' && r[j + 1] == '?';
    assert r[j..j + 2] == "??";
  }

  /** `toEmbdedUrl` with a single '?' before the optional autoplay query: the corrected counterpart of `ToEmbedUrl`. */
  function IntendedToEmbedUrl(url: string, autoplay: bool): (r: string)
    ensures Includes(url, EmbedPath) ==> r == url
    ensures !Includes(url, EmbedPath) && VParam(url).Some? ==>
      r == EmbedPrefix + VParam(url).value + (if autoplay then "?autoplay=1&mute=1" else "?")
    ensures !Includes(url, EmbedPath) && VParam(url).None? ==> r == ReplaceFirst(url, "watch?v=", "embed/")
    ensures !autoplay ==> r == ToEmbedUrl(url, autoplay)
  {
    if Includes(url, EmbedPath) then url
    else
      match VParam(url)
      case Some(v) =>
        if autoplay then EmbedPrefix + v + "?autoplay=1&mute=1" else EmbedPrefix + v + "?"
      case None => ReplaceFirst(url, "watch?v=", "embed/")
  }

  /** The corrected conversion is idempotent on watch and embed URLs too. */
  lemma IntendedToEmbedUrlIdempotent(url: string, autoplay: bool)
    requires Includes(url, EmbedPath) || VParam(url).Some?
    ensures IntendedToEmbedUrl(IntendedToEmbedUrl(url, autoplay), autoplay) == IntendedToEmbedUrl(url, autoplay)
  {
    var r := IntendedToEmbedUrl(url, autoplay);
    if !Includes(url, EmbedPath) {
      var v := VParam(url).value;
      var q := if autoplay then "?autoplay=1&mute=1" else "?";
      assert r == EmbedPrefix + (v + q);
      assert r[..|EmbedPrefix|] == EmbedPrefix;
      EmbedPrefixIncludesPath(r);
    }
  }

  // ---------------------------------------------------------------------
  // The editor

  datatype VideoForm = VideoForm(
    x: string, y: string, width: string, height: string,
    watchUrl: string, embdedUrl: string, autoplay: bool)

  const EmptyVideoForm := VideoForm("", "", "", "", "", "", false)

  /** The text fields with a `handleChange*` handler. */
  datatype VideoField = X | Y | Width | Height | WatchUrl

  /** Position and size take digits with at most one decimal point; the URL anything. */
  predicate Accepts(field: VideoField, value: string) {
    match field
    case WatchUrl => true
    case _ => IsDecimalText(value)
  }

  function Set(f: VideoForm, field: VideoField, value: string): VideoForm {
    match field
    case X => f.(x := value)
    case Y => f.(y := value)
    case Width => f.(width := value)
    case Height => f.(height := value)
    case WatchUrl => f.(watchUrl := value)
  }

  /** The fields an existing video element loads into. */
  function FormOf(e: SlideElement): (r: VideoForm)
    requires e.content.VideoContent?
    ensures r.x != "" && (AllDigits(r.x) <==> e.x >= 0)
    ensures r.y != "" && (AllDigits(r.y) <==> e.y >= 0)
    ensures r.width != "" && (AllDigits(r.width) <==> e.content.width >= 0)
    ensures r.height != "" && (AllDigits(r.height) <==> e.content.height >= 0)
    ensures r.watchUrl == e.content.watchUrl && r.embdedUrl == e.content.embdedUrl && r.autoplay == e.content.autoplay
  {
    var c := e.content;
    VideoForm(IntToString(e.x), IntToString(e.y), IntToString(c.width), IntToString(c.height), c.watchUrl, c.embdedUrl, c.autoplay)
  }

  /** The form after the `parseFloat` calls that open `handleSubmit`; the `embdedUrl` field is not read. */
  datatype VideoInput = VideoInput(
    x: Option<int>, y: Option<int>, width: Option<int>, height: Option<int>,
    watchUrl: string, autoplay: bool)

  function Parse(parseFloat: string -> Option<int>, f: VideoForm): VideoInput {
    VideoInput(parseFloat(f.x), parseFloat(f.y), parseFloat(f.width), parseFloat(f.height), f.watchUrl, f.autoplay)
  }

  /** The stored `embdedUrl` field never reaches the parsed form: whatever it holds, the save is the same. */
  lemma ParseIgnoresEmbedUrl(parseFloat: string -> Option<int>, f: VideoForm, u: string)
    ensures Parse(parseFloat, f.(embdedUrl := u)) == Parse(parseFloat, f)
    ensures forall mode, presentationId, slideId, elementId ::
      Submit(mode, Parse(parseFloat, f.(embdedUrl := u)), presentationId, slideId, elementId)
        == Submit(mode, Parse(parseFloat, f), presentationId, slideId, elementId)
  {
  }

  /** The checks of `handleSubmit`, in their order: size always, position only in edit mode. */
  function Checks(mode: Mode, p: VideoInput): seq<(FieldError, bool)> {
    if mode == Edit then [(InvalidWidth, InPercent(p.width)), (InvalidHeight, InPercent(p.height)), (InvalidX, InPercent(p.x)), (InvalidY, InPercent(p.y))]
    else [(InvalidWidth, InPercent(p.width)), (InvalidHeight, InPercent(p.height))]
  }

  predicate ValidContent(c: ElementContent) {
    c.VideoContent? && 0 <= c.width <= 100 && 0 <= c.height <= 100 && c.embdedUrl == ToEmbedUrl(c.watchUrl, c.autoplay)
  }

  predicate ValidElement(e: SlideElement) {
    0 <= e.x <= 100 && 0 <= e.y <= 100 && ValidContent(e.content)
  }

  /**
   * `handleSubmit` past the parsing: the first failing check is reported;
   * otherwise the element is sent with its embed URL computed from the
   * watch URL and the autoplay flag.
   */
  function Submit(mode: Mode, p: VideoInput, presentationId: string, slideId: string, elementId: string): (r: Submission)
    ensures r.Invalid? <==> FirstFailure(Checks(mode, p)).Some?
    ensures r.Invalid? ==> r.error == FirstFailure(Checks(mode, p)).value
    ensures r.NoRequest? <==> !r.Invalid? && mode == Close
    ensures r.Send? ==> InPercent(p.width) && InPercent(p.height)
    ensures r.Send? && mode == Create ==>
      r.request == CreateSlideElement(presentationId, slideId,
        VideoContent(p.width.value, p.height.value, p.watchUrl, ToEmbedUrl(p.watchUrl, p.autoplay), p.autoplay))
    ensures r.Send? && mode == Edit ==> InPercent(p.x) && InPercent(p.y)
    ensures r.Send? && mode == Edit ==>
      r.request == UpdateSlideElement(presentationId, slideId, elementId,
        SlideElement(elementId, p.x.value, p.y.value,
          VideoContent(p.width.value, p.height.value, p.watchUrl, ToEmbedUrl(p.watchUrl, p.autoplay), p.autoplay)))
  {
    var cs := Checks(mode, p);
    if !InPercent(p.width) then FirstFailureIs(cs, 0); Invalid(InvalidWidth)
    else if !InPercent(p.height) then FirstFailureIs(cs, 1); Invalid(InvalidHeight)
    else
      var content := VideoContent(p.width.value, p.height.value, p.watchUrl, ToEmbedUrl(p.watchUrl, p.autoplay), p.autoplay);
      match mode
      case Create => Send(CreateSlideElement(presentationId, slideId, content))
      case Edit =>
        if !InPercent(p.x) then FirstFailureIs(cs, 2); Invalid(InvalidX)
        else if !InPercent(p.y) then FirstFailureIs(cs, 3); Invalid(InvalidY)
        else Send(UpdateSlideElement(presentationId, slideId, elementId, SlideElement(elementId, p.x.value, p.y.value, content)))
      case Close => NoRequest
  }

  /** What the editor sends is a valid video element whose embed URL matches its watch URL. */
  lemma SentIsValid(mode: Mode, p: VideoInput, presentationId: string, slideId: string, elementId: string)
    ensures var r := Submit(mode, p, presentationId, slideId, elementId);
      r.Send? ==> if mode == Create then ValidContent(r.request.content) else ValidElement(r.request.element) && r.request.element.id == elementId
    ensures forall x, y :: Submit(Create, p.(x := x, y := y), presentationId, slideId, elementId) == Submit(Create, p, presentationId, slideId, elementId)
  {
  }

  /** The parsed form of an element loaded unchanged. */
  function InputOf(e: SlideElement): VideoInput
    requires e.content.VideoContent?
  {
    VideoInput(Some(e.x), Some(e.y), Some(e.content.width), Some(e.content.height), e.content.watchUrl, e.content.autoplay)
  }

  lemma SubmitInputOf(e: SlideElement, presentationId: string, slideId: string)
    requires e.content.VideoContent?
    ensures var r := Submit(Edit, InputOf(e), presentationId, slideId, e.id);
      && (r.Send? <==> 0 <= e.x <= 100 && 0 <= e.y <= 100 && 0 <= e.content.width <= 100 && 0 <= e.content.height <= 100)
      && (ValidElement(e) ==> r == Send(UpdateSlideElement(presentationId, slideId, e.id, e)))
      && (r == Send(UpdateSlideElement(presentationId, slideId, e.id, e)) ==> ValidElement(e))
  {
  }

  /**
   * With a `parseFloat` that reads back what `toString()` wrote, an element
   * loaded and saved untouched is sent back unchanged exactly when it is
   * valid; whether it is sent at all depends only on the position and size,
   * and an in-range element with a stale `embdedUrl` is sent changed.
   */
  lemma EditRoundTrip(parseFloat: string -> Option<int>, e: SlideElement, presentationId: string, slideId: string)
    requires e.content.VideoContent?
    requires parseFloat(IntToString(e.x)) == Some(e.x) && parseFloat(IntToString(e.y)) == Some(e.y)
    requires parseFloat(IntToString(e.content.width)) == Some(e.content.width)
    requires parseFloat(IntToString(e.content.height)) == Some(e.content.height)
    ensures var r := Submit(Edit, Parse(parseFloat, FormOf(e)), presentationId, slideId, e.id);
      && (r.Send? <==> 0 <= e.x <= 100 && 0 <= e.y <= 100 && 0 <= e.content.width <= 100 && 0 <= e.content.height <= 100)
      && (ValidElement(e) ==> r == Send(UpdateSlideElement(presentationId, slideId, e.id, e)))
      && (r == Send(UpdateSlideElement(presentationId, slideId, e.id, e)) ==> ValidElement(e))
  {
    assert Parse(parseFloat, FormOf(e)) == InputOf(e);
    SubmitInputOf(e, presentationId, slideId);
  }

  class VideoElementModal {
    var x: string
    var y: string
    var width: string
    var height: string
    var watchUrl: string
    var embdedUrl: string
    var autoplay: bool

    function Form(): VideoForm
      reads this
    {
      VideoForm(x, y, width, height, watchUrl, embdedUrl, autoplay)
    }

    /** Every text field starts empty and autoplay off. */
    constructor ()
      ensures Form() == EmptyVideoForm
    {
      x, y, width, height, watchUrl, embdedUrl, autoplay := "", "", "", "", "", "", false;
    }

    /**
     * The load effect: nothing without a slide or when closed; create mode
     * resets every field; edit mode loads the video element with
     * `elementId` when there is one.
     */
    method Load(mode: Mode, slide: Option<Slide>, elementId: string)
      modifies this
      ensures var found := if slide.Some? then FindElement(slide.value.elements, elementId) else None;
        Form() ==
          if slide.None? || mode == Close then old(Form())
          else if mode == Create then EmptyVideoForm
          else if found.Some? && found.value.content.VideoContent? then FormOf(found.value)
          else old(Form())
    {
      if slide.None? || mode == Close {
        return;
      }
      if mode == Create {
        SetForm(EmptyVideoForm);
        return;
      }
      var found := FindElement(slide.value.elements, elementId);
      if found.Some? && found.value.content.VideoContent? {
        SetForm(FormOf(found.value));
      }
    }

    /** Sets every field at once, as a run of setters in one effect does. */
    method SetForm(f: VideoForm)
      modifies this
      ensures Form() == f
    {
      x, y, width, height, watchUrl, embdedUrl, autoplay := f.x, f.y, f.width, f.height, f.watchUrl, f.embdedUrl, f.autoplay;
    }

    /** A `handleChange*` handler for a text field: taken only if its filter accepts the value. */
    method Change(field: VideoField, value: string)
      modifies this
      ensures Form() == if Accepts(field, value) then Set(old(Form()), field, value) else old(Form())
    {
      if !Accepts(field, value) {
        return;
      }
      match field
      case X => x := value;
      case Y => y := value;
      case Width => width := value;
      case Height => height := value;
      case WatchUrl => watchUrl := value;
    }

    /** `handleChangeAutoplay`: the radio value 'true' turns autoplay on, anything else off. */
    method ChangeAutoplay(value: string)
      modifies this
      ensures Form() == old(Form()).(autoplay := value == "true")
    {
      autoplay := value == "true";
    }

    /** `handleSubmit`: the fields are left as they are; the editor closes when the store call succeeds. */
    method HandleSubmit(parseFloat: string -> Option<int>, mode: Mode, presentationId: string, slideId: string, elementId: string, remoteOk: bool)
      returns (r: Submission, closed: bool)
      ensures r == Submit(mode, Parse(parseFloat, Form()), presentationId, slideId, elementId)
      ensures closed <==> r.Send? && remoteOk
    {
      r := Submit(mode, Parse(parseFloat, Form()), presentationId, slideId, elementId);
      closed := r.Send? && remoteOk;
    }
  }
}
