/**
 * The slide control bar: the guard on deleting a slide, the slide to show
 * afterwards, and the next/previous buttons with their visibility rules.
 * The handlers work on the current `slideIndex` and the presentation's slide
 * count; navigation is a route path.
 */
module SlideControlbar {
  import opened Wrappers
  import opened JsString
  import opened Document

  /** `presentation?.slides.length || 0`. */
  function SlidesLength(store: Store, id: string): (n: nat)
    ensures id in store ==> n == |store[id].slides|
    ensures id !in store ==> n == 0
  {
    if id in store then |store[id].slides| else 0
  }

  /** What `handleDeleteSlide` does: the store call it makes, if any, and the slide it shows afterwards, if any. */
  datatype DeleteOutcome = DeleteOutcome(request: Option<StoreRequest>, navigateTo: Option<int>)

  /**
   * `handleDeleteSlide`: refused without a store call when it would remove
   * the only slide from index 0; otherwise `deleteSlide(id, slideIndex)`,
   * and on success a move to the previous slide (on the editor route)
   * unless already at index 0. A missing presentation counts as zero slides.
   */
  function HandleDeleteSlide(store: Store, id: string, slideIndex: int, remoteOk: bool): (r: DeleteOutcome)
    ensures r.request.None? <==> slideIndex == 0 && id in store && |store[id].slides| == 1
    ensures r.request.Some? ==> r.request.value == DeleteSlide(id, slideIndex)
    ensures r.navigateTo.Some? <==> r.request.Some? && remoteOk && slideIndex != 0
    ensures r.navigateTo.Some? ==> r.navigateTo.value == slideIndex - 1
  {
    var slidesLength := SlidesLength(store, id);
    if slideIndex == 0 && slidesLength == 1 then DeleteOutcome(None, None)
    else if !remoteOk then DeleteOutcome(Some(DeleteSlide(id, slideIndex)), None)
    else if slideIndex != 0 then DeleteOutcome(Some(DeleteSlide(id, slideIndex)), Some(slideIndex - 1))
    else DeleteOutcome(Some(DeleteSlide(id, slideIndex)), None)
  }

  /**
   * From a slide that exists, the delete handler never asks to remove the
   * only slide, and the slide it moves to after a successful delete exists
   * among the remaining ones.
   */
  lemma DeleteKeepsIndexInRange(store: Store, id: string, slideIndex: int, remoteOk: bool)
    requires 0 <= slideIndex < SlidesLength(store, id)
    ensures |store[id].slides| == 1 ==> HandleDeleteSlide(store, id, slideIndex, remoteOk).request.None?
    ensures var r := HandleDeleteSlide(store, id, slideIndex, remoteOk);
      r.navigateTo.Some? ==> 0 <= r.navigateTo.value < |store[id].slides| - 1
  {
  }

  /**
   * The route of slide `index`: the editor's, or the preview's when
   * `preview` is set. Entering and leaving preview (`handleClickPreview`,
   * `handleExitPreview`) switch between the two for the current index. The
   * last segment reads back as `index` through the `parseInt(params.slideIdx)`
   * of the page it opens.
   */
  function SlidePath(preview: bool, id: string, index: int): (r: string)
    ensures StartsWith(r, "/preview-") <==> preview
    ensures var n := IntToString(index);
      |n| < |r| && r[|r| - |n| - 1] == '/' && ParseInt(r[|r| - |n|..]) == Some(index)
  {
    var prefix := RoutePrefix(preview);
    var n := IntToString(index);
    RouteSegments(prefix, id, n);
    ParseIntOfIntToString(index);
    prefix + (id + "/" + n)
  }

  /** The editor's route prefix, or the preview's. */
  function RoutePrefix(preview: bool): (prefix: string)
    ensures |prefix| >= 9 && (StartsWith(prefix, "/preview-") <==> preview)
  {
    if preview then "/preview-presentations/"
    else
      var prefix := "/presentations/";
      assert prefix[4] != "/preview-"[4];
      prefix
  }

  /** A route `prefix + id + "/" + n` keeps the head of its prefix and ends in the segment `n`. */
  lemma RouteSegments(prefix: string, id: string, n: string)
    requires |prefix| >= 9
    ensures var r := prefix + (id + "/" + n);
      && (StartsWith(r, "/preview-") <==> StartsWith(prefix, "/preview-"))
      && |n| < |r| && r[|r| - |n| - 1] == '/' && r[|r| - |n|..] == n
  {
    var r := prefix + (id + "/" + n);
    assert r[..9] == prefix[..9];
    assert r[|r| - |n|..] == n;
  }

  /** `handleClickNextSlide`: the route of the next slide, in the current mode. */
  function NextSlidePath(preview: bool, id: string, slideIndex: int): (r: string)
    ensures StartsWith(r, "/preview-") <==> preview
    ensures var n := IntToString(slideIndex + 1);
      |n| < |r| && r[|r| - |n| - 1] == '/' && ParseInt(r[|r| - |n|..]) == Some(slideIndex + 1)
  {
    var target := slideIndex + 1;
    SlidePath(preview, id, target)
  }

  /** `handleClickPrevSlide`: the route of the previous slide, in the current mode. */
  function PrevSlidePath(preview: bool, id: string, slideIndex: int): (r: string)
    ensures StartsWith(r, "/preview-") <==> preview
    ensures var n := IntToString(slideIndex - 1);
      |n| < |r| && r[|r| - |n| - 1] == '/' && ParseInt(r[|r| - |n|..]) == Some(slideIndex - 1)
  {
    var target := slideIndex - 1;
    SlidePath(preview, id, target)
  }

  /** The two route prefixes differ only in their head. */
  lemma PrefixSwap(rest: string)
    ensures "/preview-presentations/" + rest == "/preview-" + ("/presentations/" + rest)[1..]
  {
    var tail := "presentations/" + rest;
    assert "/preview-presentations/" + rest == "/preview-" + tail;
    assert "/presentations/" + rest == "/" + tail;
    assert ("/" + tail)[1..] == tail;
  }

  /**
   * Preview mode changes only the route's prefix: the preview path of a
   * slide is its editor path with "/preview-" in place of the leading "/".
   */
  lemma PreviewChangesOnlyPrefix(id: string, index: int)
    ensures SlidePath(true, id, index) == "/preview-" + SlidePath(false, id, index)[1..]
    ensures NextSlidePath(true, id, index) == "/preview-" + NextSlidePath(false, id, index)[1..]
    ensures PrevSlidePath(true, id, index) == "/preview-" + PrevSlidePath(false, id, index)[1..]
  {
    PrefixSwap(id + "/" + IntToString(index));
    PrefixSwap(id + "/" + IntToString(index + 1));
    PrefixSwap(id + "/" + IntToString(index - 1));
  }

  /** The previous-slide button is visible iff `slideIndex !== 0`: from a slide that exists, iff there is a slide before it. */
  function PrevVisible(slideIndex: int): (visible: bool)
    ensures 0 <= slideIndex ==> (visible <==> 0 <= slideIndex - 1)
  {
    slideIndex != 0
  }

  /** The next-slide button is visible iff `slideIndex < slidesLength - 1`: from a slide index, iff the presentation has a slide after it. */
  function NextVisible(store: Store, id: string, slideIndex: int): (visible: bool)
    ensures 0 <= slideIndex ==> (visible <==> id in store && slideIndex + 1 < |store[id].slides|)
  {
    slideIndex < SlidesLength(store, id) - 1
  }

  /**
   * From an index inside the deck, every visible button leads to an index
   * inside the deck, and a button is hidden only at the matching end.
   */
  lemma VisibleButtonsStayInDeck(store: Store, id: string, slideIndex: int)
    requires 0 <= slideIndex < SlidesLength(store, id)
    ensures PrevVisible(slideIndex) ==> 0 <= slideIndex - 1 < |store[id].slides|
    ensures NextVisible(store, id, slideIndex) ==> 0 <= slideIndex + 1 < |store[id].slides|
    ensures !PrevVisible(slideIndex) <==> slideIndex == 0
    ensures !NextVisible(store, id, slideIndex) <==> slideIndex == |store[id].slides| - 1
  {
  }

  /**
   * With the presentation missing, `slidesLength` falls back to 0: the
   * delete guard lets the call through and the next button stays hidden.
   */
  lemma MissingPresentationControls(store: Store, id: string, slideIndex: int, remoteOk: bool)
    requires id !in store
    ensures HandleDeleteSlide(store, id, slideIndex, remoteOk).request == Some(DeleteSlide(id, slideIndex))
    ensures 0 <= slideIndex ==> !NextVisible(store, id, slideIndex)
  {
  }
}
