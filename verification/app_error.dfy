/**
 * The application error type: the error record every failure travels in,
 * and the `AppError` constructor, whose `status` is decided by whether the
 * textual rendering of the status code starts with the character '4'.
 */
module AppErrors {
  import opened Js
  import Decimal

  /** The classification an AppError carries in its `status` property. */
  datatype Status = Fail | Error {
    function Text(): (s: string)
      ensures s == "fail" || s == "error"
      ensures s == "fail" <==> this == Fail
    {
      match this
      case Fail => "fail"
      case Error => "error"
    }
  }

  /**
   * An error value as the request pipeline sees it: its message, an optional
   * numeric `statusCode`, an optional textual `status`, and whether it is
   * flagged operational (an absent flag is modelled as false).
   */
  datatype ErrorValue = ErrorValue(
    message: string,
    statusCode: Option<int>,
    status: Option<string>,
    isOperational: bool)

  /** How a template literal renders the status code: `undefined` or its decimal digits. */
  function Render(code: Option<int>): (s: string)
    ensures |s| >= 1
    ensures code.None? ==> s == "undefined"
    ensures code.Some? ==> Decimal.IsIntText(s) && Decimal.ParseInt(s) == code.value
    ensures code.Some? ==> (s[0] == '-' <==> code.value < 0)
    ensures code.Some? && code.value >= 0 ==> s[0] == Decimal.DigitChar(Decimal.LeadingDigit(code.value))
  {
    match code
    case None => "undefined"
    case Some(i) =>
      Decimal.ParseIntRoundTrip(i);
      if i >= 0 then
        Decimal.NatToStringHead(i);
        Decimal.IntToString(i)
      else
        Decimal.IntToString(i)
  }

  /**
   * The classification rule: fail when the rendering starts with '4', error
   * otherwise; so a code is classified by its leading decimal digit alone.
   */
  function Classify(code: Option<int>): (st: Status)
    ensures st == Fail <==> code.Some? && code.value > 0 && Decimal.LeadingDigit(code.value) == 4
  {
    if Render(code)[0] == '4' then Fail else Error
  }

  /** A generic `Error` raised with a message and nothing else. */
  function PlainError(message: string): (e: ErrorValue)
    ensures e.message == message
    ensures e.statusCode.None? && e.status.None? && !e.isOperational
  {
    ErrorValue(message, None, None, false)
  }

  /** `new AppError(message, statusCode)`. */
  function NewAppError(message: string, statusCode: Option<int>): (e: ErrorValue)
    ensures e.message == message
    ensures e.statusCode == statusCode
    ensures e.isOperational
    ensures e.status == Some(Classify(statusCode).Text())
  {
    ErrorValue(message, statusCode, Some(Classify(statusCode).Text()), true)
  }

  /**
   * The constructor yields "fail" exactly for the codes lying in
   * [4 * 10^k, 5 * 10^k) for some k: 4, 40..49, 400..499, 4000..4999, ...
   */
  lemma ClassifyFailIff(code: Option<int>)
    ensures Classify(code) == Fail <==>
      code.Some? && exists k: nat :: 4 * Decimal.Pow10(k) <= code.value < 5 * Decimal.Pow10(k)
  {
    if code.Some? {
      var i := code.value;
      if i > 0 {
        Decimal.LeadingDigitIff(i, 4);
      } else {
        forall k: nat ensures !(4 * Decimal.Pow10(k) <= i) {
        }
      }
    }
  }

  /** Every HTTP client-error code is classified "fail". */
  lemma ClientErrorCodesFail(message: string, c: int)
    requires 400 <= c <= 499
    ensures NewAppError(message, Some(c)).status == Some("fail")
  {
    assert 4 * Decimal.Pow10(2) <= c < 5 * Decimal.Pow10(2);
    ClassifyFailIff(Some(c));
  }

  /** Codes that are not HTTP codes but start with '4' are classified "fail" as well. */
  lemma NonHttpFourCodesFail(c: int)
    requires c == 4 || c == 40 || 4000 <= c <= 4999
    ensures Classify(Some(c)) == Fail
  {
    if c == 4 {
      assert 4 * Decimal.Pow10(0) <= c < 5 * Decimal.Pow10(0);
    } else if c == 40 {
      assert 4 * Decimal.Pow10(1) <= c < 5 * Decimal.Pow10(1);
    } else {
      assert 4 * Decimal.Pow10(3) <= c < 5 * Decimal.Pow10(3);
    }
    ClassifyFailIff(Some(c));
  }

  /** Success, redirect and server-error codes are classified "error". */
  lemma OtherHttpCodesError(c: int)
    requires 200 <= c <= 399 || 500 <= c <= 599
    ensures Classify(Some(c)) == Error
  {
    assert Decimal.LeadingDigit(c) == Decimal.LeadingDigit(c / 10 / 10);
  }

  /** A negative code renders with a leading '-', and a missing one as "undefined": both are "error". */
  lemma NegativeOrMissingCodeError(code: Option<int>)
    requires code.None? || code.value < 0
    ensures Classify(code) == Error
  {
  }

  /** Zero renders as "0", so it is "error" too. */
  lemma ZeroCodeError()
    ensures Classify(Some(0)) == Error
  {
  }
}
