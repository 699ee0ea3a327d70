/**
 * The staff list of the admin schedule page: the department filter, and the
 * "Assign" button that opens the shift-assignment dialog for one member.
 */
module StaffAssignment {
  import opened Text
  import opened Seqs
  import opened Roster
  import ScheduleAssignment

  predicate AllHaveDepartment(staff: seq<Staff>) {
    forall i :: 0 <= i < |staff| ==> staff[i].department.Some?
  }

  /**
   * `filteredStaff`: no department keeps everyone; a department keeps the
   * members whose department has that id, in list order. The test reads
   * `member.department._id` unguarded, so with a department chosen a member
   * without one makes the expression throw: None.
   */
  function FilteredStaff(staff: seq<Staff>, selectedDepartment: string): (r: Option<seq<Staff>>)
    ensures selectedDepartment == "" ==> r == Some(staff)
    ensures r.None? <==> selectedDepartment != "" && !AllHaveDepartment(staff)
    ensures r.Some? ==> multiset(r.value) <= multiset(staff)
    ensures r.Some? && selectedDepartment != "" ==>
            forall i :: 0 <= i < |r.value| ==> r.value[i].department.Some? && r.value[i].department.value.id == selectedDepartment
  {
    if selectedDepartment == "" then Some(staff)
    else if !AllHaveDepartment(staff) then None
    else
      var kept := Filter(staff, (s: Staff) => s.department.Some? && s.department.value.id == selectedDepartment);
      Some(kept)
  }

  /** No member of the chosen department is dropped. */
  lemma FilteredStaffKeeps(staff: seq<Staff>, selectedDepartment: string, i: int)
    requires 0 <= i < |staff| && AllHaveDepartment(staff)
    requires selectedDepartment == "" || staff[i].department.value.id == selectedDepartment
    ensures FilteredStaff(staff, selectedDepartment).Some?
    ensures staff[i] in FilteredStaff(staff, selectedDepartment).value
  {
    if selectedDepartment != "" {
      FilterKeeps(staff, (s: Staff) => s.department.Some? && s.department.value.id == selectedDepartment, i);
    }
  }

  /** Where it does not throw, the page's filter keeps the same members as the dialog's. */
  lemma AgreesWithDialogFilter(staff: seq<Staff>, selectedDepartment: string)
    requires FilteredStaff(staff, selectedDepartment).Some?
    ensures FilteredStaff(staff, selectedDepartment).value
            == ScheduleAssignment.StaffInDepartment(staff, selectedDepartment)
  {
    FilterSameTest(staff, (s: Staff) => s.department.Some? && s.department.value.id == selectedDepartment,
                   (s: Staff) => ScheduleAssignment.InDepartment(s, selectedDepartment));
  }

  /** "No staff members found" shows exactly when the filtered list is empty. */
  predicate ShowsNoStaffFound(filtered: seq<Staff>) {
    |filtered| == 0
  }

  /**
   * Where the filter does not throw, "No staff members found" shows exactly
   * when no member is in the chosen department (with none chosen, when the
   * list is empty).
   */
  lemma NoStaffFoundIff(staff: seq<Staff>, selectedDepartment: string)
    requires FilteredStaff(staff, selectedDepartment).Some?
    ensures ShowsNoStaffFound(FilteredStaff(staff, selectedDepartment).value) <==>
            forall i :: 0 <= i < |staff| ==> selectedDepartment != "" && staff[i].department.value.id != selectedDepartment
  {
    var r := FilteredStaff(staff, selectedDepartment).value;
    if exists i :: 0 <= i < |staff| && (selectedDepartment == "" || staff[i].department.value.id == selectedDepartment) {
      var i :| 0 <= i < |staff| && (selectedDepartment == "" || staff[i].department.value.id == selectedDepartment);
      if selectedDepartment != "" {
        FilteredStaffKeeps(staff, selectedDepartment, i);
      }
    }
  }

  class StaffAssignmentView {
    var selectedDepartment: string
    var isModalOpen: bool
    var selectedStaffId: string

    constructor ()
      ensures selectedDepartment == "" && !isModalOpen && selectedStaffId == ""
    {
      selectedDepartment := "";
      isModalOpen := false;
      selectedStaffId := "";
    }

    /** The department selector. */
    method SelectDepartment(id: string)
      modifies this`selectedDepartment
      ensures selectedDepartment == id
    {
      selectedDepartment := id;
    }

    /** `handleAssign`: remember the member and open the dialog for them. */
    method HandleAssign(staffId: string)
      modifies this`selectedStaffId, this`isModalOpen
      ensures selectedStaffId == staffId && isModalOpen
    {
      selectedStaffId := staffId;
      isModalOpen := true;
    }

    /** The dialog's `onClose`: close it and forget the member. */
    method CloseModal()
      modifies this`selectedStaffId, this`isModalOpen
      ensures selectedStaffId == "" && !isModalOpen
    {
      isModalOpen := false;
      selectedStaffId := "";
    }
  }
}
