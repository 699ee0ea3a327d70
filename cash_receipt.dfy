/**
 * The cash-payment receipt dialog: the fields filled in from the signed-in
 * user when it opens (display name, receipt number), the field edits, the
 * submit button's gate, and the submission status. The clock (`Date.now()`
 * and today's UTC date text) and the server's answer are parameters.
 */
module CashReceipt {
  import opened Text

  /** The signed-in user, each profile field possibly missing. */
  datatype User = User(
    id: Option<string>,
    firstName: Option<string>,
    lastName: Option<string>,
    userName: Option<string>,
    email: Option<string>,
    phoneNumber: Option<string>)

  /** What the page hands the dialog. */
  datatype PaymentData = PaymentData(amount: int, depositReference: string)

  datatype ReceiptData = ReceiptData(
    patientName: string,
    patientId: string,
    patientEmail: string,
    patientPhone: string,
    amount: int,
    depositReference: string,
    bankName: string,
    branchName: string,
    depositDate: string,
    transactionId: string,
    receiptNumber: string,
    notes: string)

  /** The text fields an input can change. */
  datatype ReceiptField =
    | PatientName | PatientId | PatientEmail | PatientPhone | DepositReference
    | BankName | BranchName | DepositDate | TransactionId | ReceiptNumber | Notes

  datatype SubmitStatus = Idle | Succeeded | Failed

  /** The body of the submit request. */
  datatype Submission = Submission(userId: Option<string>, receipt: ReceiptData)

  const EmptyReceipt := ReceiptData("", "", "", "", 0, "", "", "", "", "", "", "")

  /**
   * The display name: "first last" trimmed (a missing part counts as
   * empty); when that is blank, the user name; when that is missing or
   * empty, "User". It is never empty.
   */
  function DisplayName(u: User): (r: string)
    ensures r != ""
    ensures Trim(OrElse(u.firstName, "") + " " + OrElse(u.lastName, "")) != "" ==>
            r == Trim(OrElse(u.firstName, "") + " " + OrElse(u.lastName, ""))
    ensures Trim(OrElse(u.firstName, "") + " " + OrElse(u.lastName, "")) == "" ==>
            r == OrElse(u.userName, "User")
  {
    var full := Trim(OrElse(u.firstName, "") + " " + OrElse(u.lastName, ""));
    if full != "" then full else OrElse(u.userName, "User")
  }

  /** With neither first nor last name, the user name (or "User") is shown. */
  lemma NamelessUserShowsUserName(u: User)
    requires OrElse(u.firstName, "") == "" && OrElse(u.lastName, "") == ""
    ensures DisplayName(u) == OrElse(u.userName, "User")
  {
    assert OrElse(u.firstName, "") + " " + OrElse(u.lastName, "") == " ";
    assert IsSpace(" "[0]);
  }

  /** The middle part of the receipt number: the last six characters of the id, or "000000". */
  function IdTail(id: Option<string>): (r: string)
    ensures 1 <= |r| <= 6
    ensures id.Some? && id.value != "" ==>
      |r| == (if |id.value| <= 6 then |id.value| else 6) && r == id.value[|id.value| - |r|..]
    ensures id.None? || id.value == "" ==> r == "000000"
  {
    if id.Some? && id.value != "" then TakeLast(id.value, 6) else "000000"
  }

  /** `RCP-<id tail>-<last four digits of the timestamp>`. */
  function ReceiptNumberOf(id: Option<string>, nowMs: nat): (r: string)
    ensures 7 <= |r| <= 15 && r[..4] == "RCP-"
  {
    "RCP-" + IdTail(id) + "-" + Stamp(nowMs)
  }

  /** The timestamp part: the last four characters of the decimal text, or all of it when shorter. */
  function Stamp(nowMs: nat): (r: string)
    ensures AllDigits(r) && 1 <= |r| <= 4 && '-' !in r
    ensures var s := NatToString(nowMs); |r| == (if |s| <= 4 then |s| else 4) && r == s[|s| - |r|..]
  {
    var s := NatToString(nowMs);
    var k := if |s| <= 4 then |s| else 4;
    LastFourValue(s);
    assert !IsDigit('-');
    s[|s| - k..]
  }

  /** Read as a number, the timestamp part is the time in milliseconds modulo 10000. */
  lemma StampValue(nowMs: nat)
    ensures DecimalValue(Stamp(nowMs)) == nowMs % 10000
  {
    DecimalOfNatToString(nowMs);
    LastFourValue(NatToString(nowMs));
  }

  /**
   * For an id whose tail has no '-', the receipt number splits at '-' back
   * into its three parts, the last of one to four digits.
   */
  lemma ReceiptNumberParts(id: Option<string>, nowMs: nat)
    requires '-' !in IdTail(id)
    ensures var parts := Split(ReceiptNumberOf(id, nowMs), '-');
      && parts == ["RCP", IdTail(id), Stamp(nowMs)]
      && AllDigits(parts[2]) && 1 <= |parts[2]| <= 4
  {
    var tail, stamp := IdTail(id), Stamp(nowMs);
    assert '-' !in "RCP";
    assert ReceiptNumberOf(id, nowMs) == "RCP" + ['-'] + tail + ['-'] + stamp;
    SplitThree("RCP", tail, stamp, '-');
  }

  /** The fields autofill writes; the bank details, transaction id and notes are kept. */
  function Autofilled(prev: ReceiptData, u: User, p: PaymentData, nowMs: nat, utcDay: string): (r: ReceiptData)
    ensures r.patientName == DisplayName(u)
    ensures r.patientId == OrElse(u.id, "") && r.patientEmail == OrElse(u.email, "")
    ensures r.patientPhone == OrElse(u.phoneNumber, "")
    ensures r.amount == p.amount && r.depositReference == p.depositReference
    ensures r.receiptNumber == ReceiptNumberOf(u.id, nowMs) && r.depositDate == utcDay
    ensures r.bankName == prev.bankName && r.branchName == prev.branchName
    ensures r.transactionId == prev.transactionId && r.notes == prev.notes
  {
    prev.(patientName := DisplayName(u),
          patientId := OrElse(u.id, ""),
          patientEmail := OrElse(u.email, ""),
          patientPhone := OrElse(u.phoneNumber, ""),
          amount := p.amount,
          depositReference := p.depositReference,
          receiptNumber := ReceiptNumberOf(u.id, nowMs),
          depositDate := utcDay)
  }

  function ReceiptValue(d: ReceiptData, f: ReceiptField): string {
    match f
    case PatientName => d.patientName
    case PatientId => d.patientId
    case PatientEmail => d.patientEmail
    case PatientPhone => d.patientPhone
    case DepositReference => d.depositReference
    case BankName => d.bankName
    case BranchName => d.branchName
    case DepositDate => d.depositDate
    case TransactionId => d.transactionId
    case ReceiptNumber => d.receiptNumber
    case Notes => d.notes
  }

  /** `{ ...prev, [field]: value }`. */
  function WithReceiptValue(d: ReceiptData, f: ReceiptField, value: string): (r: ReceiptData)
    ensures ReceiptValue(r, f) == value
    ensures forall g :: g != f ==> ReceiptValue(r, g) == ReceiptValue(d, g)
    ensures r.amount == d.amount
  {
    match f
    case PatientName => d.(patientName := value)
    case PatientId => d.(patientId := value)
    case PatientEmail => d.(patientEmail := value)
    case PatientPhone => d.(patientPhone := value)
    case DepositReference => d.(depositReference := value)
    case BankName => d.(bankName := value)
    case BranchName => d.(branchName := value)
    case DepositDate => d.(depositDate := value)
    case TransactionId => d.(transactionId := value)
    case ReceiptNumber => d.(receiptNumber := value)
    case Notes => d.(notes := value)
  }

  /** The submit button is disabled while submitting, or while bank name or transaction id is empty. */
  predicate SubmitDisabled(isSubmitting: bool, d: ReceiptData) {
    isSubmitting || d.bankName == "" || d.transactionId == ""
  }

  /** Filling in the bank name and the transaction id, when idle, is what enables the button. */
  lemma EnabledAfterBankDetails(d: ReceiptData, bank: string, transaction: string)
    requires bank != "" && transaction != ""
    ensures !SubmitDisabled(false, WithReceiptValue(WithReceiptValue(d, BankName, bank), TransactionId, transaction))
  {
    var d1 := WithReceiptValue(d, BankName, bank);
    assert ReceiptValue(d1, BankName) == bank;
    var d2 := WithReceiptValue(d1, TransactionId, transaction);
    assert ReceiptValue(d2, BankName) == bank;
  }

  class ReceiptDialog {
    var receiptData: ReceiptData
    var isSubmitting: bool
    var status: SubmitStatus

    constructor ()
      ensures receiptData == EmptyReceipt && !isSubmitting && status == Idle
    {
      receiptData := EmptyReceipt;
      isSubmitting := false;
      status := Idle;
    }

    /** The autofill effect: acts only when the dialog is open and a user is signed in. */
    method AutofillEffect(isOpen: bool, user: Option<User>, p: PaymentData, nowMs: nat, utcDay: string)
      modifies this`receiptData
      ensures isOpen && user.Some? ==> receiptData == Autofilled(old(receiptData), user.value, p, nowMs, utcDay)
      ensures !(isOpen && user.Some?) ==> receiptData == old(receiptData)
    {
      if isOpen && user.Some? {
        receiptData := Autofilled(receiptData, user.value, p, nowMs, utcDay);
      }
    }

    /** `handleInputChange`: sets exactly the named field. */
    method HandleInputChange(f: ReceiptField, value: string)
      modifies this`receiptData
      ensures ReceiptValue(receiptData, f) == value
      ensures forall g :: g != f ==> ReceiptValue(receiptData, g) == ReceiptValue(old(receiptData), g)
      ensures receiptData.amount == old(receiptData).amount
    {
      receiptData := WithReceiptValue(receiptData, f, value);
    }

    /**
     * `handleSubmit`: sends the receipt with the user's id; the status
     * becomes Succeeded on a success answer and Failed on a refusal or an
     * exception; submitting is over afterwards.
     */
    method HandleSubmit(userId: Option<string>, success: bool) returns (sent: Submission)
      modifies this`isSubmitting, this`status
      ensures sent == Submission(userId, receiptData)
      ensures status == (if success then Succeeded else Failed)
      ensures !isSubmitting
    {
      isSubmitting := true;
      status := Idle;
      sent := Submission(userId, receiptData);
      if success {
        status := Succeeded;
      } else {
        status := Failed;
      }
      isSubmitting := false;
    }

    /** Two seconds after a success the dialog asks to be closed and the status returns to Idle. */
    method SuccessTimeout() returns (closeRequested: bool)
      requires status == Succeeded
      modifies this`status
      ensures closeRequested && status == Idle
    {
      closeRequested := true;
      status := Idle;
    }
  }
}
