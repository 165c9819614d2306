/**
 * What the four element editors (text, image, video, code) share: the
 * editor mode, the errors their ordered checks report, the outcome of a
 * submission, and the 0..100 percentage rule applied to positions and
 * sizes. Every editor validates with an early-return chain; `FirstFailure`
 * is the order-independent reference the chains are proved against.
 */
module ElementForm {
  import opened Wrappers
  import opened JsString
  import opened Document

  /** `ElementModalMode`: the editor is creating, editing, or closed. */
  datatype Mode = Create | Edit | Close

  /** The error toasts of the editors' checks. */
  datatype FieldError =
    | InvalidX | InvalidY | InvalidWidth | InvalidHeight
    | InvalidFontSize | ColorWithoutHash | EmptyText | NoLanguage

  /**
   * The outcome of `handleSubmit`: a check failed, or the store call it
   * makes, or (a closed editor) nothing at all.
   */
  datatype Submission = Invalid(error: FieldError) | Send(request: StoreRequest) | NoRequest

  /** `!(isNaN(n) || n < 0 || n > 100)`. */
  predicate InPercent(n: Option<int>) {
    n.Some? && 0 <= n.value <= 100
  }

  /** Check `i` of an ordered list is the first one that fails. */
  predicate FirstFailingAt(checks: seq<(FieldError, bool)>, i: int) {
    0 <= i < |checks| && !checks[i].1 && forall j | 0 <= j < i :: checks[j].1
  }

  /** The error of the first failing check of an ordered list, if any check fails. */
  function FirstFailure(checks: seq<(FieldError, bool)>): (r: Option<FieldError>)
    ensures r.None? <==> forall i | 0 <= i < |checks| :: checks[i].1
    ensures r.Some? ==> exists i :: FirstFailingAt(checks, i) && checks[i].0 == r.value
  {
    if checks == [] then None
    else if !checks[0].1 then
      assert FirstFailingAt(checks, 0);
      Some(checks[0].0)
    else
      var r := FirstFailure(checks[1..]);
      assert forall i | 1 <= i < |checks| :: checks[i] == checks[1..][i - 1];
      if r.Some? then
        var i :| FirstFailingAt(checks[1..], i) && checks[1..][i].0 == r.value;
        assert FirstFailingAt(checks, i + 1);
        r
      else r
  }

  /** The first failing check determines the reported error. */
  lemma FirstFailureIs(checks: seq<(FieldError, bool)>, i: int)
    requires FirstFailingAt(checks, i)
    ensures FirstFailure(checks) == Some(checks[i].0)
  {
    var r := FirstFailure(checks);
    assert r.Some?;
    var j :| FirstFailingAt(checks, j) && checks[j].0 == r.value;
    assert 0 <= j < |checks| && !checks[j].1;
    assert forall k | 0 <= k < j :: checks[k].1;
  }

  /**
   * On a field the digit filter lets through, the percentage check passes
   * exactly when the field is non-empty and its decimal value is at most 100.
   */
  lemma DigitFieldInPercent(s: string)
    requires AllDigits(s)
    ensures InPercent(ParseInt(s)) <==> s != "" && DigitsValue(s) <= 100
  {
    ParseIntOfDigits(s);
  }

  /** A number loaded into a field with `toString()` passes the percentage check iff it lies in 0..100. */
  lemma LoadedInPercent(n: int)
    ensures ParseInt(IntToString(n)) == Some(n)
    ensures InPercent(ParseInt(IntToString(n))) <==> 0 <= n <= 100
  {
    ParseIntOfIntToString(n);
  }
}
