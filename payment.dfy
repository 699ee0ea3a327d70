/**
 * The payment page's card-entry rules: the formatting of card number, expiry
 * and CVV as they are typed, the per-field messages, the checks made before a
 * payment, the coverage-approved gate, and the default policy id. The current
 * year and month are parameters.
 */
module Payment {
  import opened Text
  import opened Clock

  function Min(a: int, b: int): int {
    if a < b then a else b
  }

  /** Groups of four characters, the last possibly shorter. */
  function Chunks(s: string): (parts: seq<string>)
    ensures s == [] <==> parts == []
    ensures forall k :: 0 <= k < |parts| ==> 1 <= |parts[k]| <= 4
    ensures forall k :: 0 <= k < |parts| - 1 ==> |parts[k]| == 4
    decreases |s|
  {
    if s == [] then []
    else if |s| <= 4 then [s]
    else [s[..4]] + Chunks(s[4..])
  }

  /** Removing the spaces from the grouped text gives back the text grouped. */
  lemma {:induction false} ChunksJoinRemoveSpaces(d: string)
    requires NoSpace(d)
    ensures RemoveSpaces(Join(Chunks(d), " ")) == d
    decreases |d|
  {
    if |d| > 4 {
      var rest := Chunks(d[4..]);
      ChunksJoinRemoveSpaces(d[4..]);
      assert Join(Chunks(d), " ") == d[..4] + " " + Join(rest, " ");
      RemoveSpacesAppend(d[..4] + " ", Join(rest, " "));
      RemoveSpacesAppend(d[..4], " ");
      assert d == d[..4] + d[4..];
      RemoveSpacesOfNoSpace(d[..4]);
    } else {
      RemoveSpacesOfNoSpace(d);
    }
  }

  /** The digits that are grouped: the first sixteen or fewer, when there are at least four. */
  function Grouped(v: string): (m: string)
    ensures |m| <= 16
  {
    if |v| >= 4 then v[..Min(16, |v|)] else ""
  }

  /**
   * `formatCardNumber` as a value: the digits of the input (whitespace and
   * everything else removed); with at least four of them, the first sixteen
   * or fewer in space-separated groups of four; otherwise the digits.
   */
  function CardNumberText(value: string): string {
    var v := KeepDigits(RemoveSpaces(value));
    var parts := Chunks(Grouped(v));
    if |parts| > 0 then Join(parts, " ") else v
  }

  /** One step of the grouping loop: the groups from `i` on are the one at `i` and those after it. */
  lemma ChunksStep(m: string, i: nat)
    requires i < |m|
    ensures Chunks(m[i..]) == [m[i..Min(i + 4, |m|)]] + Chunks(m[Min(i + 4, |m|)..])
  {
    var t := m[i..];
    if |t| > 4 {
      assert t[..4] == m[i..i + 4];
      assert t[4..] == m[i + 4..];
    } else {
      assert Min(i + 4, |m|) == |m| && m[i..|m|] == t;
      assert Chunks(m[|m|..]) == [];
    }
  }

  /** `formatCardNumber`: the loop that cuts the matched digits into groups of four. */
  method FormatCardNumber(value: string) returns (r: string)
    ensures r == CardNumberText(value)
  {
    var v := KeepDigits(RemoveSpaces(value));
    var m := Grouped(v);
    var parts: seq<string> := [];
    var i := 0;
    while i < |m|
      invariant 0 <= i
      invariant Chunks(m) == parts + Chunks(m[Min(i, |m|)..])
    {
      var next := Min(i + 4, |m|);
      ChunksStep(m, i);
      assert (parts + [m[i..next]]) + Chunks(m[next..]) == parts + ([m[i..next]] + Chunks(m[next..]));
      parts := parts + [m[i..next]];
      i := i + 4;
    }
    assert m[Min(i, |m|)..] == [];
    assert parts == Chunks(m);
    if |parts| > 0 {
      r := Join(parts, " ");
    } else {
      r := v;
    }
  }

  /**
   * Without its spaces the formatted number is a prefix of the digits typed:
   * the first sixteen or fewer when there are at least four, else all of them.
   */
  lemma CardNumberDigits(value: string)
    ensures var v := KeepDigits(RemoveSpaces(value));
      RemoveSpaces(CardNumberText(value)) == if |v| >= 4 then v[..Min(16, |v|)] else v
  {
    var v := KeepDigits(RemoveSpaces(value));
    DigitsHaveNoSpace(v);
    if |v| >= 4 {
      ChunksJoinRemoveSpaces(v[..Min(16, |v|)]);
    } else {
      RemoveSpacesOfNoSpace(v);
    }
  }

  /** Formatting what the field shows again leaves it unchanged. */
  lemma CardNumberIdempotent(value: string)
    ensures CardNumberText(CardNumberText(value)) == CardNumberText(value)
  {
    var v := KeepDigits(RemoveSpaces(value));
    var out := CardNumberText(value);
    CardNumberDigits(value);
    var d := if |v| >= 4 then v[..Min(16, |v|)] else v;
    assert AllDigits(d);
    KeepDigitsOfDigits(d);
    assert KeepDigits(RemoveSpaces(out)) == d;
    if |v| >= 4 {
      assert d[..Min(16, |d|)] == d;
      assert out == Join(Chunks(d), " ");
    } else {
      assert Chunks("") == [];
      assert out == v;
    }
  }

  /** `validateCardNumber`: without whitespace, 13 to 19 digits and nothing else; no checksum is computed. */
  predicate ValidateCardNumber(cardNumber: string) {
    var cleaned := RemoveSpaces(cardNumber);
    AllDigits(cleaned) && 13 <= |cleaned| <= 19
  }

  /** A formatted number passes the length rule exactly when at least thirteen digits were typed. */
  lemma FormattedCardNumberValid(value: string)
    ensures ValidateCardNumber(CardNumberText(value)) <==> |KeepDigits(RemoveSpaces(value))| >= 13
  {
    CardNumberDigits(value);
  }

  /** `formatExpiryDate`: the digits; from two digits on, the first two, '/', and up to two more. */
  function ExpiryText(value: string): (r: string)
    ensures |r| <= 5
    ensures var v := KeepDigits(value); |v| >= 2 ==> |r| >= 3 && r[2] == '/' && r[..2] == v[..2]
    ensures var v := KeepDigits(value); |v| >= 2 ==> AllDigits(r[3..]) && |r| == 3 + Min(2, |v| - 2)
    ensures var v := KeepDigits(value); |v| < 2 ==> r == v
  {
    var v := KeepDigits(value);
    if |v| >= 2 then v[..2] + "/" + v[2..Min(4, |v|)] else v[..]
  }

  /** Digits on both sides of a '/': keeping the digits drops only the '/'. */
  lemma SlashedDigits(head: string, w: string)
    requires AllDigits(head) && AllDigits(w)
    ensures KeepDigits(head + "/" + w) == head + w
  {
    var slash := "/";
    assert KeepDigits(slash) == [] by {
      assert slash[1..] == [];
    }
    calc {
      KeepDigits(head + slash + w);
      { KeepDigitsAppend(head + slash, w); }
      KeepDigits(head + slash) + KeepDigits(w);
      { KeepDigitsAppend(head, slash); }
      KeepDigits(head) + [] + KeepDigits(w);
      { KeepDigitsOfDigits(head); KeepDigitsOfDigits(w); }
      head + [] + w;
      { assert head + [] == head; }
      head + w;
    }
  }

  /** The digits of the formatted expiry are the first four typed. */
  lemma ExpiryTextDigits(value: string)
    ensures var v := KeepDigits(value); KeepDigits(ExpiryText(value)) == v[..Min(4, |v|)]
  {
    var v := KeepDigits(value);
    if |v| >= 2 {
      var head, w := v[..2], v[2..Min(4, |v|)];
      assert ExpiryText(value) == head + "/" + w;
      SlashedDigits(head, w);
      assert head + w == v[..Min(4, |v|)];
    } else {
      assert v[..Min(4, |v|)] == v;
    }
  }

  /** Formatting the shown expiry again changes nothing. */
  lemma ExpiryTextIdempotent(value: string)
    ensures ExpiryText(ExpiryText(value)) == ExpiryText(value)
  {
    var v := KeepDigits(value);
    ExpiryTextDigits(value);
    var d := v[..Min(4, |v|)];
    assert KeepDigits(ExpiryText(value)) == d;
    if |v| >= 2 {
      assert d[..2] == v[..2] && d[2..Min(4, |d|)] == v[2..Min(4, |v|)];
    }
  }

  /**
   * `validateExpiryDate`: both sides of the first '/' must be non-empty;
   * then the card is current when its two-digit year is after this year's
   * last two digits, or equal with a month not before this one. An
   * unreadable year or month (NaN) fails every comparison. The month is
   * not checked to lie in 1..12. `currentMonth` is the caller's
   * `getMonth() + 1`, so it counts from 1, unlike `Calendar.Date.month`,
   * which counts from 0.
   */
  predicate ValidateExpiryDate(expiry: string, currentYear: int, currentMonth: int) {
    var parts := Split(expiry, '/');
    if parts[0] == "" || |parts| < 2 || parts[1] == "" then false
    else
      var expYear := ParseInt(parts[1]);
      var expMonth := ParseInt(parts[0]);
      var thisYear := JsRem(currentYear, 100);
      expYear.Some? && (expYear.value > thisYear
        || (expYear.value == thisYear && expMonth.Some? && expMonth.value >= currentMonth))
  }

  /** On `MM/YY` digit text the rule compares year, then month, with nothing else checked. */
  lemma ExpiryOfDigits(mm: string, yy: string, currentYear: int, currentMonth: int)
    requires mm != [] && AllDigits(mm) && yy != [] && AllDigits(yy)
    ensures ValidateExpiryDate(mm + "/" + yy, currentYear, currentMonth) <==>
            DecimalValue(yy) > JsRem(currentYear, 100)
            || (DecimalValue(yy) == JsRem(currentYear, 100) && DecimalValue(mm) >= currentMonth)
  {
    assert '/' !in mm by {
      forall i | 0 <= i < |mm| ensures mm[i] != '/' { assert IsDigit(mm[i]); }
    }
    assert '/' !in yy by {
      forall i | 0 <= i < |yy| ensures yy[i] != '/' { assert IsDigit(yy[i]); }
    }
    SplitAtFirst(mm, '/', yy);
    SplitNoSeparator(yy, '/');
    assert Split(mm + "/" + yy, '/') == [mm, yy];
  }

  /** The CVV input: its digits, cut to four. */
  function SanitizeCvv(input: string): (r: string)
    ensures AllDigits(r) && |r| <= 4
    ensures |r| <= |KeepDigits(input)| && r == KeepDigits(input)[..|r|]
    ensures |KeepDigits(input)| <= 4 ==> r == KeepDigits(input)
    ensures |KeepDigits(input)| > 4 ==> |r| == 4
  {
    var d := KeepDigits(input);
    if |d| <= 4 then d else d[..4]
  }

  predicate CvvValid(cvv: string) {
    3 <= |cvv| <= 4
  }

  datatype CardField = CardNumber | ExpiryDate | Cvv | CardholderName

  datatype CardDetails = CardDetails(cardNumber: string, expiryDate: string, cvv: string, cardholderName: string)

  /** The four per-field messages, '' when the field is fine. */
  datatype CardErrors = CardErrors(cardNumber: string, expiryDate: string, cvv: string, cardholderName: string)

  function CardValue(c: CardDetails, f: CardField): string {
    match f
    case CardNumber => c.cardNumber
    case ExpiryDate => c.expiryDate
    case Cvv => c.cvv
    case CardholderName => c.cardholderName
  }

  function WithCardValue(c: CardDetails, f: CardField, value: string): (r: CardDetails)
    ensures CardValue(r, f) == value
    ensures forall g :: g != f ==> CardValue(r, g) == CardValue(c, g)
  {
    match f
    case CardNumber => c.(cardNumber := value)
    case ExpiryDate => c.(expiryDate := value)
    case Cvv => c.(cvv := value)
    case CardholderName => c.(cardholderName := value)
  }

  function ErrorOf(e: CardErrors, f: CardField): string {
    match f
    case CardNumber => e.cardNumber
    case ExpiryDate => e.expiryDate
    case Cvv => e.cvv
    case CardholderName => e.cardholderName
  }

  function WithError(e: CardErrors, f: CardField, message: string): (r: CardErrors)
    ensures ErrorOf(r, f) == message
    ensures forall g :: g != f ==> ErrorOf(r, g) == ErrorOf(e, g)
  {
    match f
    case CardNumber => e.(cardNumber := message)
    case ExpiryDate => e.(expiryDate := message)
    case Cvv => e.(cvv := message)
    case CardholderName => e.(cardholderName := message)
  }

  function RequiredMessage(f: CardField): string {
    match f
    case CardNumber => "Card number is required"
    case ExpiryDate => "Expiry date is required"
    case Cvv => "CVV is required"
    case CardholderName => "Cardholder name is required"
  }

  /** What each field must hold for the payment checks to pass. */
  predicate FieldPasses(f: CardField, value: string, currentYear: int, currentMonth: int) {
    match f
    case CardNumber => ValidateCardNumber(value)
    case ExpiryDate => ValidateExpiryDate(value, currentYear, currentMonth)
    case Cvv => CvvValid(value)
    case CardholderName => Trim(value) != ""
  }

  /**
   * The message `validateCardField` computes: an empty value (a blank name)
   * gets the field's "required" message, a value that fails its rule the
   * field's format message; the message is empty exactly when the field passes.
   */
  function CardFieldError(f: CardField, value: string, currentYear: int, currentMonth: int): (m: string)
    ensures m == "" <==> FieldPasses(f, value, currentYear, currentMonth)
    ensures (value == "" || (f == CardholderName && Trim(value) == "")) ==> m == RequiredMessage(f)
  {
    match f
    case CardNumber =>
      if value == "" then RequiredMessage(f)
      else if !ValidateCardNumber(value) then "Please enter a valid 13-19 digit card number"
      else ""
    case ExpiryDate =>
      if value == "" then RequiredMessage(f)
      else if !ValidateExpiryDate(value, currentYear, currentMonth) then "Please enter a valid expiry date (MM/YY)"
      else ""
    case Cvv =>
      if value == "" then RequiredMessage(f)
      else if |value| < 3 || |value| > 4 then "CVV must be 3-4 digits"
      else ""
    case CardholderName =>
      if Trim(value) == "" then RequiredMessage(f) else ""
  }

  /** The card checks `handlePayment` makes before processing a card payment. */
  predicate CardChecksPass(c: CardDetails, currentYear: int, currentMonth: int) {
    && ValidateCardNumber(c.cardNumber)
    && ValidateExpiryDate(c.expiryDate, currentYear, currentMonth)
    && CvvValid(c.cvv)
    && |Trim(c.cardholderName)| > 0
  }

  /** The payment checks pass exactly when no field would show a message. */
  lemma CardChecksAgreeWithMessages(c: CardDetails, currentYear: int, currentMonth: int)
    ensures CardChecksPass(c, currentYear, currentMonth) <==>
            forall f: CardField :: CardFieldError(f, CardValue(c, f), currentYear, currentMonth) == ""
  {
    if CardChecksPass(c, currentYear, currentMonth) {
      forall f: CardField ensures CardFieldError(f, CardValue(c, f), currentYear, currentMonth) == "" {
      }
    } else {
      var f: CardField :=
        if !ValidateCardNumber(c.cardNumber) then CardNumber
        else if !ValidateExpiryDate(c.expiryDate, currentYear, currentMonth) then ExpiryDate
        else if !CvvValid(c.cvv) then Cvv
        else CardholderName;
      assert !FieldPasses(f, CardValue(c, f), currentYear, currentMonth);
      assert CardFieldError(f, CardValue(c, f), currentYear, currentMonth) != "";
    }
  }

  /** The default policy id: "POL-" and the last six characters of a non-empty user id, else "POL-123456". */
  function DefaultPolicyId(userId: Option<string>): (r: string)
    ensures 4 <= |r| <= 10 && r[..4] == "POL-"
    ensures userId.Some? && userId.value != "" ==>
            var id := userId.value; |r| == 4 + Min(6, |id|) && r[4..] == id[|id| - (|r| - 4)..]
    ensures userId.None? || userId.value == "" ==> r == "POL-123456"
  {
    if userId.Some? && userId.value != "" then "POL-" + TakeLast(userId.value, 6) else "POL-123456"
  }

  datatype PaymentTab = CoverageTab | CreditCardTab | CashTab

  datatype CoverageStatus = NoCoverage | PendingCoverage | ApprovedCoverage | DeclinedCoverage

  datatype ModalKind = Success | Failure

  datatype Modal = Modal(title: string, kind: ModalKind)

  const CoverageRequired := "Coverage Required \U{274C}"
  const PaymentUnsuccessful := "Payment Unsuccessful \U{274C}"
  const PaymentSuccessful := "Payment Successful! \U{1F389}"

  /** The pay button is disabled while a payment runs, and on the coverage tab until coverage is approved. */
  predicate PayDisabled(isLoading: bool, tab: PaymentTab, status: CoverageStatus) {
    isLoading || (tab == CoverageTab && status != ApprovedCoverage)
  }

  class PaymentPage {
    var activeTab: PaymentTab
    var coverageStatus: CoverageStatus
    var isLoading: bool
    var card: CardDetails
    var cardErrors: CardErrors
    var modal: Option<Modal>

    constructor ()
      ensures activeTab == CoverageTab && coverageStatus == NoCoverage && !isLoading && modal.None?
      ensures card == CardDetails("", "", "", "") && cardErrors == CardErrors("", "", "", "")
    {
      activeTab := CoverageTab;
      coverageStatus := NoCoverage;
      isLoading := false;
      card := CardDetails("", "", "", "");
      cardErrors := CardErrors("", "", "", "");
      modal := None;
    }

    /** `validateCardField`: writes only that field's message and reports whether it is empty. */
    method ValidateCardField(f: CardField, value: string, currentYear: int, currentMonth: int) returns (ok: bool)
      modifies this`cardErrors
      ensures cardErrors == WithError(old(cardErrors), f, CardFieldError(f, value, currentYear, currentMonth))
      ensures ok <==> FieldPasses(f, value, currentYear, currentMonth)
    {
      var message := CardFieldError(f, value, currentYear, currentMonth);
      cardErrors := WithError(cardErrors, f, message);
      ok := message == "";
    }

    /**
     * Typing into a card field: the number is grouped, the expiry formatted,
     * the CVV cut to four digits, the name kept as typed; the field then
     * takes that text and is validated.
     */
    method HandleCardInput(f: CardField, typed: string, currentYear: int, currentMonth: int)
      modifies this`card, this`cardErrors
      ensures f == CardNumber ==> card == old(card).(cardNumber := CardNumberText(typed))
      ensures f == ExpiryDate ==> card == old(card).(expiryDate := ExpiryText(typed))
      ensures f == Cvv ==> card == old(card).(cvv := SanitizeCvv(typed))
      ensures f == CardholderName ==> card == old(card).(cardholderName := typed)
      ensures cardErrors == WithError(old(cardErrors), f, CardFieldError(f, CardValue(card, f), currentYear, currentMonth))
    {
      var shown: string;
      match f {
        case CardNumber => shown := FormatCardNumber(typed);
        case ExpiryDate => shown := ExpiryText(typed);
        case Cvv => shown := SanitizeCvv(typed);
        case CardholderName => shown := typed;
      }
      card := WithCardValue(card, f, shown);
      var _ := ValidateCardField(f, shown, currentYear, currentMonth);
    }

    /**
     * `handlePayment`. On the coverage tab without approved coverage it
     * stops at once; on the card tab it stops when any card check fails;
     * otherwise the payment is processed. `cardDeclined` stands for the
     * simulated card decision. Returns whether processing was reached.
     */
    method HandlePayment(currentYear: int, currentMonth: int, cardDeclined: bool) returns (processed: bool)
      requires !isLoading
      modifies this`isLoading, this`modal
      ensures !isLoading
      ensures activeTab == CoverageTab && coverageStatus != ApprovedCoverage ==>
              !processed && modal == Some(Modal(CoverageRequired, Failure))
      ensures activeTab == CreditCardTab && !CardChecksPass(card, currentYear, currentMonth) ==>
              !processed && modal == Some(Modal(PaymentUnsuccessful, Failure))
      ensures processed <==>
              (activeTab == CoverageTab ==> coverageStatus == ApprovedCoverage)
              && (activeTab == CreditCardTab ==> CardChecksPass(card, currentYear, currentMonth))
      ensures processed && activeTab == CreditCardTab && cardDeclined ==>
              modal == Some(Modal(PaymentUnsuccessful, Failure))
      ensures processed && !(activeTab == CreditCardTab && cardDeclined) ==>
              modal == Some(Modal(PaymentSuccessful, Success))
      ensures PayDisabled(false, activeTab, coverageStatus) <==> modal == Some(Modal(CoverageRequired, Failure))
    {
      if activeTab == CoverageTab && coverageStatus != ApprovedCoverage {
        modal := Some(Modal(CoverageRequired, Failure));
        return false;
      }
      isLoading := true;
      if activeTab == CreditCardTab && !CardChecksPass(card, currentYear, currentMonth) {
        modal := Some(Modal(PaymentUnsuccessful, Failure));
        isLoading := false;
        return false;
      }
      processed := true;
      if activeTab == CreditCardTab && cardDeclined {
        modal := Some(Modal(PaymentUnsuccessful, Failure));
      } else {
        modal := Some(Modal(PaymentSuccessful, Success));
      }
      isLoading := false;
    }
  }
}
