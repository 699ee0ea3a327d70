/**
 * The patient's four-step appointment wizard: Department, Schedule, Details,
 * Confirm. Each step has a gate that must pass before the wizard moves on;
 * choosing a doctor or a day clears the chosen time slot; days before today,
 * or any day while no doctor is chosen, cannot be picked. Server responses
 * (the session check, the doctor list, the free slots, the booking call)
 * arrive as parameters.
 */
module BookingWizard {
  import opened Text
  import opened Calendar
  import opened Seqs
  import opened Validation

  datatype AppointmentForm = AppointmentForm(
    patientId: string,
    doctorId: string,
    department: string,
    date: string,
    timeSlot: string)

  datatype PatientDetails = PatientDetails(
    fullName: string,
    email: string,
    phone: string,
    address: string,
    reasonForVisit: string,
    preferredLanguage: string)

  /** The input names of the details step, one per field of `PatientDetails`. */
  datatype DetailField = FullName | Email | Phone | Address | ReasonForVisit | PreferredLanguage

  datatype Doctor = Doctor(
    doctorId: string,
    firstName: string,
    lastName: string,
    specialization: Option<string>,
    department: Option<string>)

  /** The body of the booking request. */
  datatype Booking = Booking(
    patientId: string,
    doctorId: string,
    department: string,
    date: string,
    timeSlot: string,
    patientDetails: PatientDetails)

  /** What the session check returned: the user's role and id. */
  datatype Session = Session(role: string, id: string)

  /** How the booking call ended: booked, or refused with the server's `error` text if it sent one. */
  datatype SubmitOutcome = Booked | Refused(serverError: Option<string>)

  const DepartmentMissing := "Please select a department"
  const DoctorMissing := "Please select a doctor"
  const DateMissing := "Please select a date"
  const SlotMissing := "Please select a time slot"
  const DetailsMissing := "Please fill in all required fields"
  const EmailInvalid := "Please enter a valid email address"

  function Detail(d: PatientDetails, f: DetailField): string {
    match f
    case FullName => d.fullName
    case Email => d.email
    case Phone => d.phone
    case Address => d.address
    case ReasonForVisit => d.reasonForVisit
    case PreferredLanguage => d.preferredLanguage
  }

  /** `{ ...patientDetails, [name]: value }`. */
  function WithDetail(d: PatientDetails, f: DetailField, value: string): (r: PatientDetails)
    ensures Detail(r, f) == value
    ensures forall g :: g != f ==> Detail(r, g) == Detail(d, g)
  {
    match f
    case FullName => d.(fullName := value)
    case Email => d.(email := value)
    case Phone => d.(phone := value)
    case Address => d.(address := value)
    case ReasonForVisit => d.(reasonForVisit := value)
    case PreferredLanguage => d.(preferredLanguage := value)
  }

  /**
   * What each step demands of the state before the wizard may leave it;
   * the confirmation step (and any later number) demands nothing.
   */
  ghost predicate StepPasses(step: int, form: AppointmentForm, details: PatientDetails) {
    && (step == 1 ==> form.department != "")
    && (step == 2 ==> form.doctorId != "" && form.date != "" && form.timeSlot != "")
    && (step == 3 ==> details.fullName != "" && details.email != "" && details.phone != ""
                      && EmailPattern(details.email))
  }

  /**
   * `validateStep`: the message the gate of `step` writes, or None when it
   * passes. The gate fails exactly when the step's demands are not met.
   */
  function StepError(step: int, form: AppointmentForm, details: PatientDetails): (r: Option<string>)
    ensures r.None? <==> StepPasses(step, form, details)
    ensures r.Some? ==> 1 <= step <= 3
  {
    EmailTest(details.email);
    if step == 1 && form.department == "" then Some(DepartmentMissing)
    else if step == 2 && form.doctorId == "" then Some(DoctorMissing)
    else if step == 2 && form.date == "" then Some(DateMissing)
    else if step == 2 && form.timeSlot == "" then Some(SlotMissing)
    else if step == 3 && (details.fullName == "" || details.email == "" || details.phone == "") then Some(DetailsMissing)
    else if step == 3 && !IsEmail(details.email) then Some(EmailInvalid)
    else None
  }

  /** The checks of each step, in the order the gate makes them. */
  function StepChecks(step: int, form: AppointmentForm, details: PatientDetails): seq<Check> {
    if step == 1 then
      [Check(form.department == "", DepartmentMissing)]
    else if step == 2 then
      [Check(form.doctorId == "", DoctorMissing),
       Check(form.date == "", DateMissing),
       Check(form.timeSlot == "", SlotMissing)]
    else if step == 3 then
      [Check(details.fullName == "" || details.email == "" || details.phone == "", DetailsMissing),
       Check(!IsEmail(details.email), EmailInvalid)]
    else []
  }

  /** The gate reports the first of its step's checks that fails, in order. */
  lemma StepErrorIsFirstFailure(step: int, form: AppointmentForm, details: PatientDetails)
    ensures StepError(step, form, details) == FirstFailure(StepChecks(step, form, details))
  {
    var checks := StepChecks(step, form, details);
    if 1 <= step <= 3 {
      FirstFailureEmpty();
      if step == 2 {
        FirstFailureCons(checks[2], []);
        FirstFailureCons(checks[1], [checks[2]]);
        FirstFailureCons(checks[0], checks[1..]);
        assert checks == [checks[0]] + checks[1..];
        assert checks[1..] == [checks[1]] + [checks[2]];
      } else if step == 3 {
        FirstFailureCons(checks[1], []);
        FirstFailureCons(checks[0], [checks[1]]);
        assert checks == [checks[0]] + [checks[1]];
      } else {
        FirstFailureCons(checks[0], []);
        assert checks == [checks[0]] + [];
      }
    }
  }

  /** The gates never look at the patient id the session effect writes into the form. */
  lemma GatesIgnorePatientId(form: AppointmentForm, details: PatientDetails, id: string)
    ensures forall s :: StepError(s, form.(patientId := id), details) == StepError(s, form, details)
  {
  }

  /** `isDateDisabled`: a day before today, or any day while no doctor is chosen. */
  predicate IsDateDisabled(day: Date, today: Date, doctorId: string) {
    Before(day, today) || doctorId == ""
  }

  /**
   * The doctor search: the lower-cased query occurs in the lower-cased
   * "first last" name, or in the specialization (or, failing that, the
   * department, or else nothing).
   */
  predicate DoctorMatches(doc: Doctor, query: string) {
    var q := Lower(query);
    Includes(Lower(doc.firstName + " " + doc.lastName), q)
    || Includes(Lower(OrElse(doc.specialization, OrElse(doc.department, ""))), q)
  }

  /** `filteredDoctors`: the doctors the search keeps, in list order. */
  function FilteredDoctors(doctors: seq<Doctor>, query: string): (r: seq<Doctor>)
    ensures forall i :: 0 <= i < |r| ==> DoctorMatches(r[i], query)
    ensures multiset(r) <= multiset(doctors)
  {
    Filter(doctors, doc => DoctorMatches(doc, query))
  }

  /** No matching doctor is dropped from the search result. */
  lemma FilteredDoctorsKeepsMatches(doctors: seq<Doctor>, query: string, i: int)
    requires 0 <= i < |doctors| && DoctorMatches(doctors[i], query)
    ensures doctors[i] in FilteredDoctors(doctors, query)
  {
    FilterKeeps(doctors, doc => DoctorMatches(doc, query), i);
  }

  /** An empty search keeps every doctor, in order. */
  lemma EmptyQueryKeepsAll(doctors: seq<Doctor>)
    ensures FilteredDoctors(doctors, "") == doctors
  {
    var p := (doc: Doctor) => DoctorMatches(doc, "");
    forall i | 0 <= i < |doctors| ensures p(doctors[i]) {
      IncludesEmpty(Lower(doctors[i].firstName + " " + doctors[i].lastName));
    }
    FilterKeepsAll(doctors, p);
  }

  /** How the step indicator draws step `n`. */
  datatype StepState = Completed | Current | Upcoming

  function StepStateOf(currentStep: int, n: int): (s: StepState)
    ensures s == Completed <==> n < currentStep
    ensures s == Current <==> n == currentStep
  {
    if currentStep > n then Completed
    else if currentStep == n then Current
    else Upcoming
  }

  /** Of the four steps exactly one is drawn current, and those before it completed. */
  lemma OneCurrentStep(currentStep: int)
    requires 1 <= currentStep <= 4
    ensures exists n :: 1 <= n <= 4 && StepStateOf(currentStep, n) == Current
    ensures forall n, m ::
              (1 <= n <= 4 && 1 <= m <= 4 && StepStateOf(currentStep, n) == Current
               && StepStateOf(currentStep, m) == Current) ==> n == m
  {
    assert StepStateOf(currentStep, currentStep) == Current;
  }

  class Wizard {
    var currentStep: int
    var form: AppointmentForm
    var patientDetails: PatientDetails
    var error: string
    var doctors: seq<Doctor>
    var availableSlots: seq<string>
    var selectedDoctor: string
    var message: string
    var isSubmitting: bool
    var loggedInUserId: string

    /** The step is one of the four, and the gate of every step behind it passes. */
    ghost predicate Valid()
      reads this
    {
      && 1 <= currentStep <= 4
      && forall s :: 1 <= s < currentStep ==> StepError(s, form, patientDetails).None?
    }

    constructor ()
      ensures Valid() && currentStep == 1
      ensures form == AppointmentForm("", "", "", "", "")
      ensures patientDetails == PatientDetails("", "", "", "", "", "English")
      ensures error == "" && message == "" && selectedDoctor == "" && loggedInUserId == ""
      ensures doctors == [] && availableSlots == [] && !isSubmitting
    {
      currentStep := 1;
      form := AppointmentForm("", "", "", "", "");
      patientDetails := PatientDetails("", "", "", "", "", "English");
      error := "";
      doctors := [];
      availableSlots := [];
      selectedDoctor := "";
      message := "";
      isSubmitting := false;
      loggedInUserId := "";
    }

    /** The session effect: only a patient's id is taken into the form. */
    method AuthEffect(session: Option<Session>)
      requires Valid()
      modifies this`form, this`loggedInUserId, this`error
      ensures Valid()
      ensures session.None? ==>
              (error == "Please login to book an appointment."
               && form == old(form) && loggedInUserId == old(loggedInUserId))
      ensures session.Some? && session.value.role != "Patient" ==>
              (error == "Only patients can book appointments. Please login as a patient."
               && form == old(form) && loggedInUserId == old(loggedInUserId))
      ensures session.Some? && session.value.role == "Patient" ==>
              (loggedInUserId == session.value.id && form == old(form).(patientId := session.value.id)
               && error == old(error))
    {
      if session.None? {
        error := "Please login to book an appointment.";
      } else if session.value.role != "Patient" {
        error := "Only patients can book appointments. Please login as a patient.";
      } else {
        loggedInUserId := session.value.id;
        GatesIgnorePatientId(form, patientDetails, session.value.id);
        form := form.(patientId := session.value.id);
      }
    }

    /** `validateStep`: whether the current step's gate passes; a failing gate writes its message. */
    method ValidateStep() returns (ok: bool)
      modifies this`error
      ensures ok <==> StepPasses(currentStep, form, patientDetails)
      ensures !ok ==> error == StepError(currentStep, form, patientDetails).value
      ensures ok ==> error == old(error)
    {
      var r := StepError(currentStep, form, patientDetails);
      ok := r.None?;
      if !ok {
        error := r.value;
      }
    }

    /** "Continue": one step forward when the gate passes, else stay with the gate's message. */
    method NextStep()
      requires Valid() && currentStep < 4
      modifies this`currentStep, this`error
      ensures Valid()
      ensures StepPasses(old(currentStep), form, patientDetails) ==>
              currentStep == old(currentStep) + 1 && error == ""
      ensures !StepPasses(old(currentStep), form, patientDetails) ==>
              currentStep == old(currentStep) && error == StepError(currentStep, form, patientDetails).value
    {
      var ok := ValidateStep();
      if ok {
        assert StepError(currentStep, form, patientDetails).None?;
        currentStep := currentStep + 1;
        error := "";
      }
    }

    /** "Previous": offered from steps 2 and 3 only; one step back, error cleared. */
    method PrevStep()
      requires Valid() && 1 < currentStep < 4
      modifies this`currentStep, this`error
      ensures Valid()
      ensures currentStep == old(currentStep) - 1 && error == ""
    {
      currentStep := currentStep - 1;
      error := "";
    }

    /** A department card of step 1. */
    method SelectDepartment(name: string)
      requires Valid() && currentStep == 1
      modifies this`form
      ensures Valid()
      ensures form == old(form).(department := name)
    {
      form := form.(department := name);
    }

    /** `handleDoctorSelection` (step 2): sets the doctor, clears the slot, keeps department and date. */
    method HandleDoctorSelection(doc: Doctor)
      requires Valid() && currentStep == 2
      modifies this`form, this`selectedDoctor
      ensures Valid()
      ensures form == old(form).(doctorId := doc.doctorId, timeSlot := "")
      ensures selectedDoctor == doc.firstName + " " + doc.lastName
    {
      assert StepError(1, form, patientDetails).None?;
      selectedDoctor := doc.firstName + " " + doc.lastName;
      form := form.(doctorId := doc.doctorId, timeSlot := "");
      assert StepError(1, form, patientDetails).None?;
    }

    /**
     * `handleDateSelect` (step 2) for day `day` of the month shown: a
     * disabled day changes nothing; any other day becomes the form's date,
     * as `YYYY-MM-DD`, and clears the slot.
     */
    method HandleDateSelect(year: int, month: int, day: int, today: Date)
      requires Valid() && currentStep == 2
      requires 0 <= month < 12 && 1 <= day <= DaysInMonth(year, month)
      modifies this`form
      ensures Valid()
      ensures IsDateDisabled(Date(year, month, day), today, old(form).doctorId) ==> form == old(form)
      ensures !IsDateDisabled(Date(year, month, day), today, old(form).doctorId) ==>
              form == old(form).(date := IsoDate(Date(year, month, day)), timeSlot := "")
    {
      if form.doctorId == "" {
        return;
      }
      if Before(Date(year, month, day), today) {
        return;
      }
      assert StepError(1, form, patientDetails).None?;
      form := form.(date := IsoDate(Date(year, month, day)), timeSlot := "");
      assert StepError(1, form, patientDetails).None?;
    }

    /** A slot button of step 2. */
    method SelectTimeSlot(slot: string)
      requires Valid() && currentStep == 2 && slot in availableSlots
      modifies this`form
      ensures Valid()
      ensures form == old(form).(timeSlot := slot)
    {
      assert StepError(1, form, patientDetails).None?;
      form := form.(timeSlot := slot);
      assert StepError(1, form, patientDetails).None?;
    }

    /** `handlePatientDetailsChange` (step 3): sets exactly the named field and clears the error. */
    method HandlePatientDetailsChange(field: DetailField, value: string)
      requires Valid() && currentStep == 3
      modifies this`patientDetails, this`error
      ensures Valid()
      ensures patientDetails == WithDetail(old(patientDetails), field, value)
      ensures error == ""
    {
      assert StepError(1, form, patientDetails).None? && StepError(2, form, patientDetails).None?;
      patientDetails := WithDetail(patientDetails, field, value);
      error := "";
      assert StepError(1, form, patientDetails).None? && StepError(2, form, patientDetails).None?;
    }

    /** The doctor-list effect: no department means no doctors; a failed fetch keeps the list and reports. */
    method DoctorsEffect(response: Option<seq<Doctor>>)
      modifies this`doctors, this`error
      ensures form.department == "" ==> doctors == [] && error == old(error)
      ensures form.department != "" && response.Some? ==> doctors == response.value && error == old(error)
      ensures form.department != "" && response.None? ==>
              doctors == old(doctors) && error == "Failed to load doctors. Please try again."
    {
      if form.department == "" {
        doctors := [];
      } else if response.Some? {
        doctors := response.value;
      } else {
        error := "Failed to load doctors. Please try again.";
      }
    }

    /** The free-slot effect: no doctor or no date means no slots; a failed fetch empties them and reports. */
    method SlotsEffect(response: Option<seq<string>>)
      modifies this`availableSlots, this`error
      ensures form.doctorId == "" || form.date == "" ==> availableSlots == [] && error == old(error)
      ensures form.doctorId != "" && form.date != "" && response.Some? ==>
              availableSlots == response.value && error == old(error)
      ensures form.doctorId != "" && form.date != "" && response.None? ==>
              availableSlots == [] && error == "Failed to load available time slots. Please try again."
    {
      if form.doctorId == "" || form.date == "" {
        availableSlots := [];
      } else if response.Some? {
        availableSlots := response.value;
      } else {
        error := "Failed to load available time slots. Please try again.";
        availableSlots := [];
      }
    }

    /**
     * `handleSubmit` on the confirmation step. Without a patient id no
     * request is sent; otherwise the request carries the logged-in user's id
     * and the form, and every field the earlier gates demanded is present.
     */
    method HandleSubmit(outcome: SubmitOutcome) returns (sent: Option<Booking>)
      requires Valid() && currentStep == 4
      modifies this`error, this`message, this`isSubmitting
      ensures sent.None? <==> form.patientId == "" || loggedInUserId == ""
      ensures sent.None? ==>
              (error == "Patient ID is missing. Please login again."
               && message == old(message) && isSubmitting == old(isSubmitting))
      ensures sent.Some? ==> sent.value == Booking(loggedInUserId, form.doctorId, form.department,
                                                   form.date, form.timeSlot, patientDetails)
      ensures sent.Some? ==> !isSubmitting
      ensures sent.Some? ==>
              (sent.value.department != "" && sent.value.doctorId != ""
               && sent.value.date != "" && sent.value.timeSlot != ""
               && sent.value.patientDetails.fullName != "" && sent.value.patientDetails.phone != ""
               && EmailPattern(sent.value.patientDetails.email))
      ensures sent.Some? && outcome.Booked? ==> message == "Appointment booked successfully!" && error == ""
      ensures sent.Some? && outcome.Refused? ==>
              (message == old(message)
               && error == OrElse(outcome.serverError, "Error booking appointment. Please try again."))
    {
      if form.patientId == "" || loggedInUserId == "" {
        error := "Patient ID is missing. Please login again.";
        return None;
      }
      isSubmitting := true;
      error := "";
      sent := Some(Booking(loggedInUserId, form.doctorId, form.department, form.date, form.timeSlot, patientDetails));
      assert StepError(1, form, patientDetails).None?;
      assert StepError(2, form, patientDetails).None?;
      assert StepError(3, form, patientDetails).None?;
      if outcome.Booked? {
        message := "Appointment booked successfully!";
      } else {
        error := OrElse(outcome.serverError, "Error booking appointment. Please try again.");
      }
      isSubmitting := false;
    }
  }
}
