/** client/src/components/CampaignDetails.js: the donate form. `handleDonate`
    checks the typed amount, then the login, then the payment gateway, and
    opens a checkout for the amount in paise; the checkout's success callback
    records the donation in rupees, and its dismissal ends the wait. The
    gateway itself (script loading, the order and the checkout window) is not
    part of this model: whether it loaded and how the server answered are
    parameters. The page's progress bar uses the same `getProgress` as the
    admin dashboard, `AdminDashboard.GetProgress`. */
module CampaignDetails {
  import opened Models
  import opened Text
  import AdminDashboard
  import CampaignController

  /** Every character of `s` is a decimal digit. */
  predicate AllDigits(s: string) {
    forall i :: 0 <= i < |s| ==> IsDigit(s[i])
  }

  /** The first index of a character satisfying `p`, or `|s|`. */
  function Find(s: string, p: char -> bool): (i: nat)
    ensures i <= |s|
    ensures i < |s| ==> p(s[i])
    ensures forall j :: 0 <= j < i ==> !p(s[j])
  {
    if s == [] then 0
    else if p(s[0]) then 0
    else 1 + Find(s[1..], p)
  }

  /** `Find` gives `k` when `s[k]` is the first character satisfying `p`. */
  lemma FindFirst(s: string, p: char -> bool, k: nat)
    requires k < |s| && p(s[k])
    requires forall j :: 0 <= j < k ==> !p(s[j])
    ensures Find(s, p) == k
  {
  }

  function Pow10(n: nat): (r: real)
    ensures r >= 1.0
  {
    if n == 0 then 1.0 else 10.0 * Pow10(n - 1)
  }

  /** The value of the literal `whole.frac`. */
  function DecimalValue(whole: string, frac: string): (r: real)
    requires AllDigits(whole) && AllDigits(frac)
    ensures r >= 0.0
    ensures frac == [] ==> r == DigitsValue(whole) as real
  {
    DigitsValue(whole) as real + DigitsValue(frac) as real / Pow10(|frac|)
  }

  /** A value times ten to the power `e`. */
  function Scale(m: real, e: int): (r: real)
    ensures m >= 0.0 ==> r >= 0.0
    ensures e == 0 ==> r == m
  {
    if e >= 0 then m * Pow10(e) else m / Pow10(-e)
  }

  predicate IsPoint(c: char) { c == '.' }

  predicate IsExponentMark(c: char) { c == 'e' || c == 'E' }

  /** The characters a decimal literal is written with. */
  predicate IsNumberChar(c: char) {
    IsDigit(c) || IsPoint(c) || IsExponentMark(c) || c == '+' || c == '-'
  }

  /** Digits with at most one `.`, and at least one digit: `5`, `5.`,
      `.5`, `5.25`. */
  function Mantissa(t: string): (r: Option<real>)
    ensures r.Some? ==> r.value >= 0.0
    ensures AllDigits(t) ==> (r.Some? <==> t != [])
    ensures AllDigits(t) && t != [] ==> r == Some(DigitsValue(t) as real)
  {
    var k := Find(t, IsPoint);
    if k == |t| then
      if t != [] && AllDigits(t) then Some(DigitsValue(t) as real) else None
    else
      var whole, frac := t[..k], t[k + 1..];
      if |whole| + |frac| > 0 && AllDigits(whole) && AllDigits(frac) then
        Some(DecimalValue(whole, frac))
      else None
  }

  /** A decimal fraction `w.f` reads as its whole part plus the digits
      after the point over the matching power of ten. */
  lemma MantissaFraction(w: string, f: string)
    requires AllDigits(w) && AllDigits(f) && |w| + |f| > 0
    ensures Mantissa(w + "." + f) == Some(DecimalValue(w, f))
  {
    var t := w + "." + f;
    assert forall j :: 0 <= j < |w| ==> t[j] == w[j] && !IsPoint(t[j]);
    FindFirst(t, IsPoint, |w|);
    assert t[..|w|] == w && t[|w| + 1..] == f;
  }

  /** An optional sign and at least one digit. */
  function Exponent(t: string): (r: Option<int>)
    ensures AllDigits(t) ==> (r.Some? <==> t != [])
    ensures AllDigits(t) && t != [] ==> r == Some(DigitsValue(t) as int)
  {
    if t != [] && (t[0] == '+' || t[0] == '-') then
      var digits := t[1..];
      if digits != [] && AllDigits(digits) then
        Some(if t[0] == '-' then -(DigitsValue(digits) as int) else DigitsValue(digits) as int)
      else None
    else if t != [] && AllDigits(t) then Some(DigitsValue(t) as int)
    else None
  }

  /** An unsigned decimal literal with an optional exponent. */
  function Unsigned(t: string): (r: Option<real>)
    ensures r.Some? ==> r.value >= 0.0
    ensures (forall i :: 0 <= i < |t| ==> !IsExponentMark(t[i])) ==> r == Mantissa(t)
  {
    var k := Find(t, IsExponentMark);
    if k == |t| then Mantissa(t)
    else
      match (Mantissa(t[..k]), Exponent(t[k + 1..]))
      case (Some(m), Some(e)) =>
        Some(Scale(m, e))
      case _ => None
  }

  /** A mantissa followed by `e` or `E` and an exponent reads as the
      mantissa times ten to the exponent. */
  lemma UnsignedExponent(m: string, mark: char, x: string)
    requires IsExponentMark(mark) && Mantissa(m).Some? && Exponent(x).Some?
    ensures Unsigned(m + [mark] + x) == Some(Scale(Mantissa(m).value, Exponent(x).value))
  {
    var t := m + [mark] + x;
    assert forall j :: 0 <= j < |m| ==> t[j] == m[j] && !IsExponentMark(t[j]);
    FindFirst(t, IsExponentMark, |m|);
    assert t[..|m|] == m && t[|m| + 1..] == x;
  }

  /** A non-blank trimmed text: an optional sign, then an unsigned
      literal. */
  function Signed(t: string): (r: Option<real>)
    requires t != []
    ensures r.Some? && r.value > 0.0 ==> t[0] != '-'
  {
    if t[0] == '-' then
      match Unsigned(t[1..])
      case Some(v) => Some(-v)
      case None => None
    else if t[0] == '+' then Unsigned(t[1..])
    else Unsigned(t)
  }

  /** `Number(s)` on a decimal string (`None`: NaN): blank is 0, otherwise
      the trimmed text must be an optionally signed decimal literal, so a
      text with any other character, such as a letter other than `e`, is
      NaN (`StrayCharIsNaN`). */
  function ParseNumber(s: string): (r: Option<real>)
    ensures Trim(s) == [] ==> r == Some(0.0)
    ensures r.Some? && r.value > 0.0 ==> Trim(s) != [] && Trim(s)[0] != '-'
  {
    var t := Trim(s);
    if t == [] then Some(0.0) else Signed(t)
  }

  /** A mantissa is written with digits and points only. */
  lemma MantissaChars(t: string)
    requires Mantissa(t).Some?
    ensures forall i :: 0 <= i < |t| ==> IsDigit(t[i]) || IsPoint(t[i])
  {
    var k := Find(t, IsPoint);
    if k < |t| {
      assert forall i :: 0 <= i < k ==> t[i] == t[..k][i];
      assert forall i :: k < i < |t| ==> t[i] == t[k + 1..][i - k - 1];
    }
  }

  /** An exponent is written with digits and signs only. */
  lemma ExponentChars(t: string)
    requires Exponent(t).Some?
    ensures forall i :: 0 <= i < |t| ==> IsDigit(t[i]) || t[i] == '+' || t[i] == '-'
  {
    if t[0] == '+' || t[0] == '-' {
      assert forall i :: 0 < i < |t| ==> t[i] == t[1..][i - 1];
    }
  }

  /** An unsigned literal is written with number characters only. */
  lemma UnsignedChars(t: string)
    requires Unsigned(t).Some?
    ensures forall i :: 0 <= i < |t| ==> IsNumberChar(t[i])
  {
    var k := Find(t, IsExponentMark);
    if k == |t| {
      MantissaChars(t);
    } else {
      MantissaChars(t[..k]);
      ExponentChars(t[k + 1..]);
      assert forall i :: 0 <= i < k ==> t[i] == t[..k][i];
      assert forall i :: k < i < |t| ==> t[i] == t[k + 1..][i - k - 1];
    }
  }

  /** A text whose trimmed form holds a character no decimal literal uses,
      such as a letter other than `e`, reads as NaN. */
  lemma StrayCharIsNaN(s: string, i: nat)
    requires i < |Trim(s)| && !IsNumberChar(Trim(s)[i])
    ensures ParseNumber(s).None?
  {
    var t := Trim(s);
    if t[0] == '-' || t[0] == '+' {
      assert i > 0 && t[i] == t[1..][i - 1];
      if Unsigned(t[1..]).Some? {
        UnsignedChars(t[1..]);
      }
    } else if Unsigned(t).Some? {
      UnsignedChars(t);
    }
  }

  /** A string that neither starts nor ends with a space is its own trim. */
  lemma TrimKeeps(s: string)
    requires s != [] && !IsSpace(s[0]) && !IsSpace(s[|s| - 1])
    ensures Trim(s) == s
  {
    assert TrimStart(s) == s;
    assert TrimEnd(s) == s;
  }

  /** Unsigned text without an exponent and with nothing to trim is read
      as a mantissa. */
  lemma ParsePlain(t: string)
    requires t != [] && !IsSpace(t[0]) && !IsSpace(t[|t| - 1])
    requires t[0] != '-' && t[0] != '+'
    requires forall i :: 0 <= i < |t| ==> !IsExponentMark(t[i])
    ensures ParseNumber(t) == Mantissa(t)
  {
    TrimKeeps(t);
  }

  /** What `String(n)` prints, `Number` reads back. */
  lemma ParseDecimal(n: nat)
    ensures ParseNumber(DecimalString(n)) == Some(n as real)
  {
    var s := DecimalString(n);
    assert AllDigits(s);
    ParsePlain(s);
  }

  /** A `-` in front of an unsigned literal negates it; a literal that is
      not a number stays NaN. */
  lemma ParseMinus(u: string)
    requires |u| > 1 && u[0] == '-' && !IsSpace(u[|u| - 1])
    ensures Unsigned(u[1..]).Some? ==> ParseNumber(u) == Some(-Unsigned(u[1..]).value)
    ensures Unsigned(u[1..]).None? ==> ParseNumber(u).None?
  {
    TrimKeeps(u);
  }

  /** A `+` in front of an unsigned literal changes nothing. */
  lemma ParsePlus(u: string)
    requires |u| > 1 && u[0] == '+' && !IsSpace(u[|u| - 1])
    ensures ParseNumber(u) == Unsigned(u[1..])
  {
    TrimKeeps(u);
  }

  /** A typed amount with a decimal point, such as `10.50`, reads as its
      whole part plus its fraction. */
  lemma ParseFraction(w: string, f: string)
    requires AllDigits(w) && AllDigits(f) && |w| + |f| > 0
    ensures ParseNumber(w + "." + f) == Some(DecimalValue(w, f))
  {
    var t := w + "." + f;
    assert forall j :: 0 <= j < |t| ==> IsDigit(t[j]) || IsPoint(t[j]);
    ParsePlain(t);
    MantissaFraction(w, f);
  }

  /** `Number("10.50")` is 10.5. */
  lemma TenFifty()
    ensures ParseNumber("10.50") == Some(10.5)
  {
    assert "10.50" == "10" + "." + "50";
    ParseFraction("10", "50");
    TenFiftyValue();
  }

  lemma TenFiftyValue()
    ensures DecimalValue("10", "50") == 10.5
  {
    assert DigitsValue("1") == 1;
    assert DigitsValue("10") == 10;
    assert DigitsValue("5") == 5;
    assert DigitsValue("50") == 50;
    assert Pow10(2) == 100.0;
  }

  const EnterValidAmount := "Enter a valid amount"
  const LoginRequired := "Please login to make a donation"
  const GatewayFailed := "Failed to load payment gateway"
  const Recorded := "Donation recorded successfully!"
  const RecordFailed := "Failed to record donation"
  const RecordFailedRetry := "Failed to record donation. Please try again."

  /** The amount check: a non-empty input that reads as a positive number. */
  predicate ValidInput(donation: string) {
    donation != "" && ParseNumber(donation).Some? && ParseNumber(donation).value > 0.0
  }

  /** How `handleDonate` ends: refused with a message, or a checkout opened
      for `paise` in `currency`, to be recorded as `rupees`. */
  datatype DonateStart = Refused(message: string) | Checkout(paise: int, currency: string, rupees: real)

  /** The checks of `handleDonate` in their order: the amount first, then
      the login, then the gateway; a checkout opens exactly when all three
      pass, in rupees as typed and in paise rounded to the nearest whole. */
  function StartDonation(donation: string, hasUser: bool, hasToken: bool, gatewayLoaded: bool): (r: DonateStart)
    ensures !ValidInput(donation) ==> r == Refused(EnterValidAmount)
    ensures ValidInput(donation) && !(hasUser && hasToken) ==> r == Refused(LoginRequired)
    ensures ValidInput(donation) && hasUser && hasToken && !gatewayLoaded ==> r == Refused(GatewayFailed)
    ensures r.Checkout? <==> ValidInput(donation) && hasUser && hasToken && gatewayLoaded
    ensures r.Refused? ==> r.message in {EnterValidAmount, LoginRequired, GatewayFailed}
    ensures r.Checkout? ==>
      && r.currency == "INR" && Some(r.rupees) == ParseNumber(donation) && r.rupees > 0.0
      && r.paise >= 0 && r.paise as real - 0.5 <= r.rupees * 100.0 < r.paise as real + 0.5
  {
    var amount := ParseNumber(donation);
    if donation == "" || amount.None? || amount.value <= 0.0 then Refused(EnterValidAmount)
    else if !hasUser || !hasToken then Refused(LoginRequired)
    else if !gatewayLoaded then Refused(GatewayFailed)
    else Checkout(AdminDashboard.Round(amount.value * 100.0), "INR", amount.value)
  }

  /** A whole number of rupees typed in is charged as exactly a hundred
      times as many paise and recorded unchanged. */
  lemma WholeRupees(n: nat)
    requires n > 0
    ensures StartDonation(DecimalString(n), true, true, true) == Checkout(100 * n, "INR", n as real)
  {
    ParseDecimal(n);
  }

  /** The rupee amount the success callback posts always passes the
      server's amount check. */
  lemma CheckoutPassesServerCheck(donation: string, hasUser: bool, hasToken: bool, gatewayLoaded: bool)
    requires StartDonation(donation, hasUser, hasToken, gatewayLoaded).Checkout?
    ensures CampaignController.ValidAmount(Some(StartDonation(donation, hasUser, hasToken, gatewayLoaded).rupees))
  {
  }

  /** How the request that records a paid donation ended: the server
      stored it; the server refused it, with the `message` field of its JSON
      body if it has one; or the request itself threw (the network request
      was rejected or the body was not JSON) with that error's message. */
  datatype RecordReply = Stored | Declined(message: Option<string>) | Threw(errorMessage: string)

  /** The error the success callback shows when recording fails. A refusal
      shows the body's non-empty `message`, else "Failed to record
      donation"; a thrown error shows its own non-empty message, else the
      same text with "Please try again." added. */
  function FailureMessage(reply: RecordReply): (m: string)
    requires !reply.Stored?
    ensures m != ""
    ensures reply.Declined? && reply.message.Some? && reply.message.value != "" ==> m == reply.message.value
    ensures reply.Declined? && (reply.message.None? || reply.message.value == "") ==> m == RecordFailed
    ensures reply.Threw? && reply.errorMessage != "" ==> m == reply.errorMessage
    ensures reply.Threw? && reply.errorMessage == "" ==> m == RecordFailedRetry
  {
    var thrown :=
      if reply.Declined? then
        (if reply.message.Some? && reply.message.value != "" then reply.message.value else RecordFailed)
      else reply.errorMessage;
    if thrown != "" then thrown else RecordFailedRetry
  }

  /** The checks `handleDonate` runs, one after another, before it opens
      the checkout. */
  method CheckDonation(donation: string, hasUser: bool, hasToken: bool, gatewayLoaded: bool)
    returns (start: DonateStart)
    ensures start == StartDonation(donation, hasUser, hasToken, gatewayLoaded)
  {
    var amount := ParseNumber(donation);
    if donation == "" || amount.None? || amount.value <= 0.0 {
      return Refused(EnterValidAmount);
    }
    if !hasUser || !hasToken {
      return Refused(LoginRequired);
    }
    if !gatewayLoaded {
      return Refused(GatewayFailed);
    }
    start := Checkout(AdminDashboard.Round(amount.value * 100.0), "INR", amount.value);
  }

  /** The form's state. */
  class DonateForm {
    var donation: string
    var loading: bool
    var error: Option<string>
    var success: Option<string>
    var showModal: bool
    var lastDonationAmount: Option<real>

    constructor ()
      ensures donation == "" && !loading && error == None && success == None
      ensures !showModal && lastDonationAmount == None
    {
      donation, loading, error, success := "", false, None, None;
      showModal, lastDonationAmount := false, None;
    }

    /** Typing in the amount box. */
    method SetDonation(text: string)
      modifies this
      ensures donation == text
      ensures loading == old(loading) && error == old(error) && success == old(success)
      ensures showModal == old(showModal) && lastDonationAmount == old(lastDonationAmount)
    {
      donation := text;
    }

    /** `handleDonate`: clears the messages and the modal, then either stops
      with an error and the loading flag reset, or opens a checkout and
      stays loading until the callback or the dismissal. */
    method HandleDonate(hasUser: bool, hasToken: bool, gatewayLoaded: bool) returns (start: DonateStart)
      modifies this
      ensures start == StartDonation(old(donation), hasUser, hasToken, gatewayLoaded)
      ensures start.Refused? ==> error == Some(start.message) && !loading
      ensures start.Checkout? ==> error == None && loading
      ensures success == None && !showModal
      ensures donation == old(donation) && lastDonationAmount == old(lastDonationAmount)
    {
      var typed := donation;
      loading, error, success, showModal := true, None, None, false;
      start := CheckDonation(typed, hasUser, hasToken, gatewayLoaded);
      if start.Refused? {
        error, loading := Some(start.message), false;
      }
    }

    /** The checkout's success callback, once the request recording the
      donation (posted as `start.rupees`) has ended: when it was stored the
      amount is remembered, the confirmation and the modal shown and the
      input cleared; otherwise the error is shown and the input kept. Either
      way loading ends. */
    method OnPaymentResponse(start: DonateStart, reply: RecordReply)
      requires start.Checkout?
      modifies this
      ensures !loading
      ensures reply.Stored? ==>
        && lastDonationAmount == Some(start.rupees) && success == Some(Recorded) && showModal
        && donation == "" && error == old(error)
      ensures !reply.Stored? ==>
        && error == Some(FailureMessage(reply))
        && donation == old(donation) && lastDonationAmount == old(lastDonationAmount)
        && success == old(success) && showModal == old(showModal)
    {
      if reply.Stored? {
        lastDonationAmount := Some(start.rupees);
        success := Some(Recorded);
        showModal := true;
        donation := "";
      } else {
        error := Some(FailureMessage(reply));
      }
      loading := false;
    }

    /** Closing the checkout window without paying. */
    method OnDismiss()
      modifies this
      ensures !loading
      ensures donation == old(donation) && error == old(error) && success == old(success)
      ensures showModal == old(showModal) && lastDonationAmount == old(lastDonationAmount)
    {
      loading := false;
    }
  }
}
