/**
 * The pure parts of the PayPal client: string sanitising for the order payload, the amount
 * breakdown and its consistency check, the return/cancel URLs, and when a capture counts as done.
 * HTTP calls are not modelled; a capture is described by its transport outcome, status code and the
 * status parsed from its body.
 */
module PayPal {
  import opened Wrappers
  import Numeric
  import Chars

  // ---------------------------------------------------------------- sanitizeString

  /** A character `strings.Map` keeps: code points 32 to 126. */
  predicate IsPrintable(c: char) { 32 <= c as int <= 126 }

  predicate AllPrintable(s: string) { forall i :: 0 <= i < |s| ==> IsPrintable(s[i]) }

  /** Drops every character outside 32..126, keeping the others in order. */
  function KeepPrintable(s: string): (r: string)
    ensures |r| <= |s| && AllPrintable(r)
    ensures AllPrintable(s) ==> r == s
    ensures |r| == |s| ==> r == s
  {
    if s == [] then []
    else if IsPrintable(s[0]) then [s[0]] + KeepPrintable(s[1..])
    else KeepPrintable(s[1..])
  }

  /** `sanitizeString`: keep printable characters, then cut to `maxLength`. */
  function SanitizeString(s: string, maxLength: nat): (r: string)
    ensures |r| <= maxLength && AllPrintable(r)
    ensures r <= KeepPrintable(s)
    ensures |KeepPrintable(s)| <= maxLength ==> r == KeepPrintable(s)
  {
    var t := KeepPrintable(s);
    if |t| > maxLength then t[..maxLength] else t
  }

  /** Sanitising twice with the same bound changes nothing more. */
  lemma SanitizeIdempotent(s: string, maxLength: nat)
    ensures SanitizeString(SanitizeString(s, maxLength), maxLength) == SanitizeString(s, maxLength)
  {
    var r := SanitizeString(s, maxLength);
    assert KeepPrintable(r) == r;
  }

  /** A short printable string passes through unchanged. */
  lemma SanitizeKeepsPrintable(s: string, maxLength: nat)
    requires AllPrintable(s) && |s| <= maxLength
    ensures SanitizeString(s, maxLength) == s
  {
  }

  // ---------------------------------------------------------------- amounts

  /** The PayPal amount breakdown; prices are exact reals here (no cent rounding). */
  datatype Breakdown = Breakdown(subtotal: real, discount: real, tax: real, total: real)

  /**
   * `CreatePayPalOrder`: the item total is unit price times quantity, the discount is that
   * percentage of the item total, the tax is the per-unit GST times quantity, and the order total is
   * item total plus tax minus discount.
   */
  function AmountBreakdown(unitPrice: real, gstPrice: real, quantity: int, discountPct: real): (b: Breakdown)
    ensures b.subtotal == unitPrice * quantity as real
    ensures b.tax == gstPrice * quantity as real
    ensures b.discount == b.subtotal * discountPct / 100.0
    ensures b.total + b.discount == b.subtotal + b.tax
  {
    var subtotal := unitPrice * quantity as real;
    var discount := subtotal * (discountPct / 100.0);
    var tax := gstPrice * quantity as real;
    Breakdown(subtotal, discount, tax, subtotal + tax - discount)
  }

  function Abs(x: real): real { if x < 0.0 then -x else x }

  /** `verifyAmountBreakdown`: a mismatch is an error when the totals differ by more than a cent. */
  function VerifyAmountBreakdown(subtotal: real, gst: real, discount: real, total: real): (mismatch: bool)
    ensures mismatch <==> (subtotal + gst - discount - total > 0.01 || total - (subtotal + gst - discount) > 0.01)
  {
    Abs(subtotal + gst - discount - total) > 0.01
  }

  /** A breakdown computed by `AmountBreakdown` never fails the consistency check. */
  lemma BreakdownIsConsistent(unitPrice: real, gstPrice: real, quantity: int, discountPct: real)
    ensures var b := AmountBreakdown(unitPrice, gstPrice, quantity, discountPct);
            !VerifyAmountBreakdown(b.subtotal, b.tax, b.discount, b.total)
  {
  }

  /** A total off by more than a cent is always reported. */
  lemma VerifyDetectsMismatch(b: Breakdown, delta: real)
    requires b.total == b.subtotal + b.tax - b.discount && (delta > 0.01 || delta < -0.01)
    ensures VerifyAmountBreakdown(b.subtotal, b.tax, b.discount, b.total + delta)
  {
  }

  // ---------------------------------------------------------------- URLs

  const PaymentStatusPath := "/payment-status?payment_id="

  /** `returnURL`: `<appUrl>/payment-status?payment_id=<id>&action=success`. */
  function ReturnURL(appUrl: string, paymentId: nat): string {
    appUrl + PaymentStatusPath + Numeric.Itoa(paymentId) + "&action=success"
  }

  /** `cancelURL`: the same with `action=cancel`. */
  function CancelURL(appUrl: string, paymentId: nat): string {
    appUrl + PaymentStatusPath + Numeric.Itoa(paymentId) + "&action=cancel"
  }

  /** The `payment_id` value that follows the path of a payment-status URL, up to the next `&`. */
  function PaymentIdParam(url: string, appUrl: string): (r: Option<int>)
  {
    var start := |appUrl| + |PaymentStatusPath|;
    if start <= |url| && '&' in url[start..] then
      Numeric.Atoi(url[start..][..Chars.IndexOf(url[start..], '&')])
    else None
  }

  /** Both URLs carry the payment id, readable back from them, and they are different URLs. */
  lemma URLsCarryPaymentId(appUrl: string, paymentId: nat)
    requires paymentId <= Numeric.MaxInt64
    ensures PaymentIdParam(ReturnURL(appUrl, paymentId), appUrl) == Some(paymentId)
    ensures PaymentIdParam(CancelURL(appUrl, paymentId), appUrl) == Some(paymentId)
    ensures ReturnURL(appUrl, paymentId) != CancelURL(appUrl, paymentId)
  {
    var digits := Numeric.Itoa(paymentId);
    Numeric.AtoiOfItoa(paymentId);
    ItoaHasNoAmpersand(paymentId);
    ParamBeforeAmpersand(appUrl, digits, "&action=success");
    ParamBeforeAmpersand(appUrl, digits, "&action=cancel");
    assert |ReturnURL(appUrl, paymentId)| != |CancelURL(appUrl, paymentId)|;
  }

  lemma ItoaHasNoAmpersand(n: nat)
    ensures '&' !in Numeric.Itoa(n)
  {
    var s := Numeric.Itoa(n);
    assert s == Numeric.NatToString(n);
    assert forall k :: 0 <= k < |s| ==> s[k] != '&';
  }

  lemma ParamBeforeAmpersand(appUrl: string, digits: string, tail: string)
    requires '&' !in digits && tail != [] && tail[0] == '&'
    ensures PaymentIdParam(appUrl + PaymentStatusPath + digits + tail, appUrl) == Numeric.Atoi(digits)
  {
    var url := appUrl + PaymentStatusPath + digits + tail;
    var start := |appUrl| + |PaymentStatusPath|;
    assert url[start..] == digits + tail;
    AmpersandAfter(digits, tail);
  }

  lemma AmpersandAfter(digits: string, tail: string)
    requires '&' !in digits && tail != [] && tail[0] == '&'
    ensures '&' in digits + tail
    ensures Chars.IndexOf(digits + tail, '&') == |digits|
    ensures (digits + tail)[..|digits|] == digits
  {
    var t := digits + tail;
    assert t[|digits|] == '&';
    assert t[..|digits|] == digits;
    var k := Chars.IndexOf(t, '&');
    assert forall j :: 0 <= j < |digits| ==> t[j] == digits[j];
    assert forall j :: |digits| < j <= |t| ==> t[..j][|digits|] == '&';
  }

  // ---------------------------------------------------------------- capture

  datatype CaptureError = TransportFailed | BadStatusCode(code: int) | UnparsableBody | NotCompleted(status: string)

  /** What a capture call returned: whether the request and body read succeeded, the code, the parsed status. */
  datatype CaptureResponse = CaptureResponse(transportOk: bool, statusCode: int, parsedStatus: Option<string>)

  /** `CapturePayPalPayment` acceptance: the checks run in this order and the first failure is reported. */
  function CaptureOutcome(resp: CaptureResponse): (r: Result<(), CaptureError>)
    ensures r.Ok? <==> resp.transportOk && resp.statusCode in {200, 201} && resp.parsedStatus == Some("COMPLETED")
    ensures resp.transportOk && resp.statusCode !in {200, 201} ==> r == Err(BadStatusCode(resp.statusCode))
  {
    if !resp.transportOk then Err(TransportFailed)
    else if resp.statusCode != 200 && resp.statusCode != 201 then Err(BadStatusCode(resp.statusCode))
    else match resp.parsedStatus
      case None => Err(UnparsableBody)
      case Some(st) => if st != "COMPLETED" then Err(NotCompleted(st)) else Ok(())
  }
}
