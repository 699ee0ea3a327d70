/**
 * The shift-assignment dialog: its form, the staff list narrowed to the chosen
 * department, the rule that a new date, time or department drops the chosen
 * staff member, when the server is asked for available staff, and the submit
 * path with its required-field check.
 */
module ScheduleAssignment {
  import opened Text
  import opened Seqs
  import opened Roster

  datatype ShiftForm = ShiftForm(
    staffId: string,
    departmentId: string,
    shiftDate: string,
    shiftType: string,
    startTime: string,
    endTime: string,
    notes: string)

  /** The input names of the form, one per field of `ShiftForm`. */
  datatype ShiftField = StaffId | DepartmentId | ShiftDate | ShiftType | StartTime | EndTime | Notes

  /** The body of the create request. */
  datatype ScheduleRequest = ScheduleRequest(
    staffId: string,
    departmentId: string,
    shiftDate: string,
    shiftType: string,
    startTime: string,
    endTime: string,
    notes: string,
    createdBy: string)

  /**
   * How the create call ended: created, or failed with the server's
   * `message` and `error` texts and the exception's own message, each if present.
   */
  datatype CreateOutcome = Created | Failed(dataMessage: Option<string>, dataError: Option<string>, errorMessage: Option<string>)

  function Field(f: ShiftForm, k: ShiftField): string {
    match k
    case StaffId => f.staffId
    case DepartmentId => f.departmentId
    case ShiftDate => f.shiftDate
    case ShiftType => f.shiftType
    case StartTime => f.startTime
    case EndTime => f.endTime
    case Notes => f.notes
  }

  /** `{ ...prev, [name]: value }`. */
  function WithField(f: ShiftForm, k: ShiftField, value: string): (r: ShiftForm)
    ensures Field(r, k) == value
    ensures forall g :: g != k ==> Field(r, g) == Field(f, g)
  {
    match k
    case StaffId => f.(staffId := value)
    case DepartmentId => f.(departmentId := value)
    case ShiftDate => f.(shiftDate := value)
    case ShiftType => f.(shiftType := value)
    case StartTime => f.(startTime := value)
    case EndTime => f.(endTime := value)
    case Notes => f.(notes := value)
  }

  /** The fields whose change drops the chosen staff member. */
  predicate ResetsStaff(k: ShiftField) {
    k == ShiftDate || k == StartTime || k == EndTime || k == DepartmentId
  }

  /**
   * The form a dialog starts with, and with `None` the form a create resets
   * it to. The staff member is the `selectedStaffId` prop as it was when the
   * dialog was first mounted: `useState` reads it only then, so a later
   * change of the prop does not reach the form. The staff page mounts the
   * dialog as soon as its lists have loaded, while the prop is still empty,
   * and the schedule page passes no prop, so in practice no member is ever
   * preselected.
   */
  function DefaultForm(selectedStaffId: Option<string>): (f: ShiftForm)
    ensures f.departmentId == "" && f.shiftDate == "" && f.notes == ""
    ensures f.shiftType == "Morning" && f.startTime == "08:00" && f.endTime == "17:00"
    ensures selectedStaffId.None? ==> f.staffId == ""
    ensures selectedStaffId.Some? ==> f.staffId == selectedStaffId.value
  {
    ShiftForm(OrElse(selectedStaffId, ""), "", "", "Morning", "08:00", "17:00", "")
  }

  predicate InDepartment(s: Staff, departmentId: string) {
    s.department.Some? && s.department.value.id == departmentId
  }

  /**
   * `filterStaffByDepartment`: no department keeps everyone; a department
   * keeps the members that have one with that id, in list order.
   */
  function StaffInDepartment(staff: seq<Staff>, departmentId: string): (r: seq<Staff>)
    ensures departmentId == "" ==> r == staff
    ensures departmentId != "" ==> forall i :: 0 <= i < |r| ==> InDepartment(r[i], departmentId)
    ensures multiset(r) <= multiset(staff)
  {
    if departmentId == "" then staff
    else Filter(staff, (s: Staff) => InDepartment(s, departmentId))
  }

  /** No member of the department is dropped. */
  lemma StaffInDepartmentKeeps(staff: seq<Staff>, departmentId: string, i: int)
    requires 0 <= i < |staff| && InDepartment(staff[i], departmentId)
    ensures staff[i] in StaffInDepartment(staff, departmentId)
  {
    if departmentId != "" {
      FilterKeeps(staff, (s: Staff) => InDepartment(s, departmentId), i);
    }
  }

  /** The server is asked for available staff only while the dialog is open and date and both times are set. */
  predicate ShouldFetchAvailable(isOpen: bool, f: ShiftForm) {
    isOpen && f.shiftDate != "" && f.startTime != "" && f.endTime != ""
  }

  /** "No staff members found in this department". */
  predicate ShowsNoStaffInDepartment(f: ShiftForm, availableStaff: seq<Staff>) {
    f.departmentId != "" && |availableStaff| == 0
  }

  /** "No available staff for this time slot". */
  predicate ShowsNoAvailableStaff(f: ShiftForm, availableStaff: seq<Staff>) {
    f.shiftDate != "" && f.startTime != "" && f.endTime != "" && |availableStaff| == 0 && f.departmentId == ""
  }

  /** The two empty-list messages never show together, and one shows whenever the list is empty once a department, or a date and both times, are set. */
  lemma EmptyListMessages(f: ShiftForm, availableStaff: seq<Staff>)
    ensures !(ShowsNoStaffInDepartment(f, availableStaff) && ShowsNoAvailableStaff(f, availableStaff))
    ensures |availableStaff| == 0 && (f.departmentId != "" || ShouldFetchAvailable(true, f)) ==>
            ShowsNoStaffInDepartment(f, availableStaff) || ShowsNoAvailableStaff(f, availableStaff)
  {
  }

  /** The staff selector is disabled while data loads or no department is chosen. */
  predicate StaffSelectDisabled(dataLoading: bool, f: ShiftForm) {
    dataLoading || f.departmentId == ""
  }

  /**
   * A dialog opens with the staff selector disabled. Choosing a department
   * clears the staff choice, and the selector is then enabled, once data
   * has loaded, exactly when the department chosen is not the empty option.
   */
  lemma StaffSelectGate(f: ShiftForm, value: string, dataLoading: bool, selectedStaffId: Option<string>)
    ensures StaffSelectDisabled(dataLoading, DefaultForm(selectedStaffId))
    ensures var g := WithField(WithField(f, DepartmentId, value), StaffId, "");
      && g.staffId == "" && g.departmentId == value
      && (StaffSelectDisabled(dataLoading, g) <==> dataLoading || value == "")
  {
  }

  class AssignmentModal {
    var formData: ShiftForm
    var allStaff: seq<Staff>
    var availableStaff: seq<Staff>
    var error: string

    constructor (selectedStaffId: Option<string>)
      ensures formData == DefaultForm(selectedStaffId)
      ensures allStaff == [] && availableStaff == [] && error == ""
    {
      formData := DefaultForm(selectedStaffId);
      allStaff := [];
      availableStaff := [];
      error := "";
    }

    /**
     * `handleInputChange`: sets exactly the named field; a new date, time or
     * department also clears the staff choice, and a new department narrows
     * the list.
     */
    method HandleInputChange(k: ShiftField, value: string)
      modifies this`formData, this`availableStaff
      ensures Field(formData, k) == value
      ensures forall g :: g != k && g != StaffId ==> Field(formData, g) == Field(old(formData), g)
      ensures ResetsStaff(k) ==> formData.staffId == ""
      ensures !ResetsStaff(k) && k != StaffId ==> formData.staffId == old(formData).staffId
      ensures k == DepartmentId ==> availableStaff == StaffInDepartment(allStaff, value)
      ensures k != DepartmentId ==> availableStaff == old(availableStaff)
      ensures k == DepartmentId ==> (StaffSelectDisabled(false, formData) <==> value == "")
    {
      formData := WithField(formData, k, value);
      if ResetsStaff(k) {
        formData := WithField(formData, StaffId, "");
        if k == DepartmentId {
          FilterStaffByDepartment(value);
        }
      }
    }

    method FilterStaffByDepartment(departmentId: string)
      modifies this`availableStaff
      ensures availableStaff == StaffInDepartment(allStaff, departmentId)
    {
      availableStaff := StaffInDepartment(allStaff, departmentId);
    }

    /** The effect that narrows the list whenever the full list is non-empty. */
    method FilterEffect()
      modifies this`availableStaff
      ensures |allStaff| > 0 ==> availableStaff == StaffInDepartment(allStaff, formData.departmentId)
      ensures |allStaff| == 0 ==> availableStaff == old(availableStaff)
    {
      if |allStaff| > 0 {
        FilterStaffByDepartment(formData.departmentId);
      }
    }

    /** `fetchAllStaff`: both lists become the server's list, or empty when the fetch fails. */
    method FetchAllStaff(response: Option<seq<Staff>>)
      modifies this`allStaff, this`availableStaff
      ensures allStaff == availableStaff
      ensures allStaff == if response.Some? then response.value else []
    {
      allStaff := if response.Some? then response.value else [];
      availableStaff := allStaff;
    }

    /**
     * The effect run when the dialog opens or the date, a time or the
     * department changes: while open, and only once date and both times are
     * set, the available staff are asked for (`availableResponse` is the
     * answer); otherwise the list is left as it is. The departments and the
     * full list it also loads are `FetchAllStaff`.
     */
    method OpenEffect(isOpen: bool, availableResponse: Option<seq<Staff>>) returns (fetched: bool)
      modifies this`availableStaff
      ensures fetched <==> ShouldFetchAvailable(isOpen, formData)
      ensures fetched ==> availableStaff == if availableResponse.Some? then availableResponse.value else []
      ensures !fetched ==> availableStaff == old(availableStaff)
    {
      fetched := false;
      if isOpen {
        if formData.shiftDate != "" && formData.startTime != "" && formData.endTime != "" {
          FetchAvailableStaff(availableResponse);
          fetched := true;
        }
      }
    }

    /** `fetchAvailableStaff`: the list becomes the server's answer, or empty when the fetch fails. */
    method FetchAvailableStaff(response: Option<seq<Staff>>)
      modifies this`availableStaff
      ensures availableStaff == if response.Some? then response.value else []
    {
      availableStaff := if response.Some? then response.value else [];
    }

    /**
     * `handleSubmit`. `isoDate` is what `new Date(shiftDate).toISOString()`
     * gives: nothing (it throws "Invalid time value") for an empty date, and
     * never empty text. Then staff, department, date and creator must be
     * present; a create closes the dialog and resets the form.
     */
    method HandleSubmit(isoDate: Option<string>, userId: Option<string>, outcome: CreateOutcome)
        returns (sent: Option<ScheduleRequest>, closed: bool)
      requires formData.shiftDate == "" ==> isoDate.None?
      requires isoDate.Some? ==> isoDate.value != ""
      modifies this`formData, this`error
      ensures isoDate.None? ==> sent.None? && error == "Invalid time value"
      ensures isoDate.Some? && (old(formData).staffId == "" || old(formData).departmentId == "" || OrElse(userId, "") == "") ==>
              sent.None? && error == "Missing required fields"
      ensures sent.Some? <==> isoDate.Some? && old(formData).staffId != "" && old(formData).departmentId != "" && OrElse(userId, "") != ""
      ensures sent.Some? ==>
              var f := old(formData);
              sent.value == ScheduleRequest(f.staffId, f.departmentId, isoDate.value, f.shiftType, f.startTime, f.endTime, f.notes, userId.value)
      ensures closed <==> sent.Some? && outcome.Created?
      ensures closed ==> formData == DefaultForm(None) && error == ""
      ensures !closed ==> formData == old(formData)
      ensures sent.Some? && outcome.Failed? ==>
              error == OrElse(outcome.dataMessage, OrElse(outcome.dataError, OrElse(outcome.errorMessage, "Error creating schedule")))
    {
      error := "";
      closed := false;
      if isoDate.None? {
        error := "Invalid time value";
        return None, false;
      }
      if formData.staffId == "" || formData.departmentId == "" || OrElse(userId, "") == "" {
        error := "Missing required fields";
        return None, false;
      }
      sent := Some(ScheduleRequest(formData.staffId, formData.departmentId, isoDate.value, formData.shiftType,
                                   formData.startTime, formData.endTime, formData.notes, userId.value));
      if outcome.Created? {
        closed := true;
        formData := DefaultForm(None);
      } else {
        error := OrElse(outcome.dataMessage, OrElse(outcome.dataError, OrElse(outcome.errorMessage, "Error creating schedule")));
      }
    }
  }
}
