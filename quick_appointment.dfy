/**
 * The single-page appointment form: its fixed department, doctor and time
 * tables, the field edits that clear both notices, the doctor selector's
 * gate, and the notices a booking attempt leaves. The booking call's answer
 * is a parameter.
 */
module QuickAppointment {
  import opened Text

  datatype AppointmentForm = AppointmentForm(
    patientId: string,
    doctorId: string,
    department: string,
    date: string,
    timeSlot: string)

  /** The input names of the form, one per field of `AppointmentForm`. */
  datatype FormField = PatientId | DoctorId | Department | Date | TimeSlot

  /**
   * How the booking call ended: booked with the server's `message` (if any),
   * or thrown with the server's `error` text (if any).
   */
  datatype BookingOutcome = Booked(message: Option<string>) | Threw(serverError: Option<string>)

  const Departments: seq<string> := ["Cardiology", "Neurology", "Orthopedics"]

  const TimeSlots: seq<string> := ["09:00", "10:00", "11:00", "13:00", "14:00"]

  const BookingError := "Error booking appointment"

  /** `doctors[form.department] || []`: the table's doctors of a department, none for any other text. */
  function DoctorsFor(department: string): (r: seq<string>)
    ensures department !in Departments ==> r == []
    ensures department in Departments ==> |r| >= 1
  {
    match department
    case "Cardiology" => ["D001", "D002"]
    case "Neurology" => ["D003"]
    case "Orthopedics" => ["D004"]
    case _ => []
  }

  /** No doctor is listed under two departments. */
  lemma DoctorsBelongToOneDepartment(a: string, b: string, doctor: string)
    requires doctor in DoctorsFor(a) && doctor in DoctorsFor(b)
    ensures a == b
  {
  }

  /** The minute of the day an `HH:MM` slot names. */
  function SlotMinutes(slot: string): (m: int)
    requires |slot| == 5 && AllDigits(slot[..2]) && slot[2] == ':' && AllDigits(slot[3..])
    ensures 0 <= m
  {
    60 * DecimalValue(slot[..2]) + DecimalValue(slot[3..])
  }

  predicate IsClockText(slot: string) {
    |slot| == 5 && AllDigits(slot[..2]) && slot[2] == ':' && AllDigits(slot[3..])
  }

  /** The value of two decimal digits. */
  lemma TwoDigitValue(s: string)
    requires |s| == 2 && AllDigits(s)
    ensures DecimalValue(s) == 10 * (s[0] as int - '0' as int) + (s[1] as int - '0' as int)
  {
    assert s[..1][..0] == [] && s[..|s| - 1] == s[..1];
    assert DecimalValue(s[..1]) == s[0] as int - '0' as int;
  }

  /** The minute of the day of one of the slots. */
  lemma SlotMinutesOf(slot: string)
    requires IsClockText(slot)
    ensures SlotMinutes(slot) == 60 * (10 * (slot[0] as int - '0' as int) + (slot[1] as int - '0' as int))
                                 + 10 * (slot[3] as int - '0' as int) + (slot[4] as int - '0' as int)
  {
    TwoDigitValue(slot[..2]);
    TwoDigitValue(slot[3..]);
  }

  /** The five slots are `HH:MM` texts in strictly increasing order of time. */
  lemma TimeSlotsAscending()
    ensures forall i :: 0 <= i < |TimeSlots| ==> IsClockText(TimeSlots[i])
    ensures forall i :: 0 <= i < |TimeSlots| - 1 ==> SlotMinutes(TimeSlots[i]) < SlotMinutes(TimeSlots[i + 1])
  {
    forall i | 0 <= i < |TimeSlots| ensures IsClockText(TimeSlots[i]) {
      assert IsDigit(TimeSlots[i][0]) && IsDigit(TimeSlots[i][1]);
      assert IsDigit(TimeSlots[i][3]) && IsDigit(TimeSlots[i][4]);
      assert TimeSlots[i][..2] == [TimeSlots[i][0], TimeSlots[i][1]];
      assert TimeSlots[i][3..] == [TimeSlots[i][3], TimeSlots[i][4]];
    }
    forall i | 0 <= i < |TimeSlots| ensures SlotMinutes(TimeSlots[i]) == [540, 600, 660, 780, 840][i] {
      SlotMinutesOf(TimeSlots[i]);
    }
  }

  /** The doctor selector is disabled while no department is chosen. */
  predicate DoctorSelectDisabled(f: AppointmentForm) {
    f.department == ""
  }

  /**
   * After a department change the doctor selector is disabled, with no
   * doctors, for the empty option, and enabled with at least one doctor for
   * a department of the table. The doctor already chosen is kept either way.
   */
  lemma DoctorSelectGate(f: AppointmentForm, value: string)
    ensures var g := WithFormValue(f, Department, value);
      && (DoctorSelectDisabled(g) <==> value == "")
      && (value == "" ==> DoctorsFor(g.department) == [])
      && (value in Departments ==> |DoctorsFor(g.department)| >= 1)
      && g.doctorId == f.doctorId
  {
  }

  function FormValue(f: AppointmentForm, k: FormField): string {
    match k
    case PatientId => f.patientId
    case DoctorId => f.doctorId
    case Department => f.department
    case Date => f.date
    case TimeSlot => f.timeSlot
  }

  /** `{ ...form, [name]: value }`. */
  function WithFormValue(f: AppointmentForm, k: FormField, value: string): (r: AppointmentForm)
    ensures FormValue(r, k) == value
    ensures forall g :: g != k ==> FormValue(r, g) == FormValue(f, g)
  {
    match k
    case PatientId => f.(patientId := value)
    case DoctorId => f.(doctorId := value)
    case Department => f.(department := value)
    case Date => f.(date := value)
    case TimeSlot => f.(timeSlot := value)
  }

  class QuickForm {
    var form: AppointmentForm
    var message: string
    var error: string

    constructor ()
      ensures form == AppointmentForm("", "", "", "", "") && message == "" && error == ""
    {
      form := AppointmentForm("", "", "", "", "");
      message := "";
      error := "";
    }

    /** `handleChange`: sets exactly the named field and clears both notices. */
    method HandleChange(k: FormField, value: string)
      modifies this`form, this`message, this`error
      ensures FormValue(form, k) == value
      ensures forall g :: g != k ==> FormValue(form, g) == FormValue(old(form), g)
      ensures message == "" && error == ""
    {
      form := WithFormValue(form, k, value);
      message := "";
      error := "";
    }

    /**
     * `handleSubmit`: sends the form as it is (nothing is checked first). A
     * booking shows the server's message, a failure its error text or
     * "Error booking appointment"; the other notice is left as it was.
     */
    method HandleSubmit(outcome: BookingOutcome) returns (sent: AppointmentForm)
      modifies this`message, this`error
      ensures sent == form
      ensures outcome.Booked? ==> message == OrElse(outcome.message, "") && error == old(error)
      ensures outcome.Threw? ==> error == OrElse(outcome.serverError, BookingError) && message == old(message)
    {
      sent := form;
      match outcome {
        case Booked(m) =>
          message := OrElse(m, "");
        case Threw(e) =>
          error := OrElse(e, BookingError);
      }
    }
  }
}
