/**
 * The staff and shift records the admin screens receive from the server.
 * A populated reference the server may leave out (`staffId`, `departmentId`,
 * `department`) is an `Option`; so is a name the server may omit.
 */
module Roster {
  import opened Text
  import opened Calendar

  /** The department a staff member belongs to. */
  datatype DeptRef = DeptRef(id: string, name: string)

  datatype Staff = Staff(
    id: string,
    firstName: string,
    lastName: string,
    role: string,
    department: Option<DeptRef>)

  /** The populated `staffId` of a shift. */
  datatype StaffRef = StaffRef(firstName: Option<string>, lastName: Option<string>, role: Option<string>)

  /** The populated `departmentId` of a shift. */
  datatype DeptName = DeptName(name: Option<string>)

  /**
   * A shift. `shiftDate` is the day the browser reads from the stored date
   * text; the text itself and its parsing are not modelled.
   */
  datatype Schedule = Schedule(
    id: string,
    staff: Option<StaffRef>,
    department: Option<DeptName>,
    shiftDate: Date,
    shiftType: string,
    startTime: string,
    endTime: string,
    status: string,
    notes: Option<string>)

  /** `schedule.staffId?.firstName || ''` and its siblings. */
  function StaffFirstName(s: Schedule): string {
    if s.staff.Some? then OrElse(s.staff.value.firstName, "") else ""
  }

  function StaffLastName(s: Schedule): string {
    if s.staff.Some? then OrElse(s.staff.value.lastName, "") else ""
  }

  function StaffRole(s: Schedule): string {
    if s.staff.Some? then OrElse(s.staff.value.role, "") else ""
  }

  function DepartmentName(s: Schedule): string {
    if s.department.Some? then OrElse(s.department.value.name, "") else ""
  }
}
