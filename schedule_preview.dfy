/**
 * The admin list of shifts: the search filter, the selected shift, and the
 * edit buffer whose save rewrites the shift with the selected id.
 */
module SchedulePreview {
  import opened Text
  import opened Seqs
  import opened Roster

  /** The four fields the edit form changes. */
  datatype EditData = EditData(shiftType: string, startTime: string, endTime: string, notes: string)

  datatype EditField = EditShiftType | EditStartTime | EditEndTime | EditNotes

  const EmptyEdit := EditData("", "", "", "")

  /** `name?.toLowerCase().includes(term.toLowerCase())`: a missing name never matches. */
  predicate NameMatches(name: Option<string>, term: string) {
    name.Some? && Includes(Lower(name.value), Lower(term))
  }

  /** A shift the search keeps: staff and department populated, and the term in a name. */
  predicate SearchMatches(sc: Schedule, term: string) {
    && sc.staff.Some?
    && sc.department.Some?
    && (NameMatches(sc.staff.value.firstName, term)
        || NameMatches(sc.staff.value.lastName, term)
        || NameMatches(sc.department.value.name, term))
  }

  /** `filteredSchedules`: the shifts the search keeps, in list order; none lacks staff or department. */
  function FilteredSchedules(schedules: seq<Schedule>, term: string): (r: seq<Schedule>)
    ensures forall i :: 0 <= i < |r| ==> r[i].staff.Some? && r[i].department.Some? && SearchMatches(r[i], term)
    ensures multiset(r) <= multiset(schedules)
  {
    Filter(schedules, (sc: Schedule) => SearchMatches(sc, term))
  }

  /** No matching shift is dropped. */
  lemma FilteredSchedulesKeeps(schedules: seq<Schedule>, term: string, i: int)
    requires 0 <= i < |schedules| && SearchMatches(schedules[i], term)
    ensures schedules[i] in FilteredSchedules(schedules, term)
  {
    FilterKeeps(schedules, (sc: Schedule) => SearchMatches(sc, term), i);
  }

  /** An empty search lists every populated shift that has any of the three names. */
  lemma EmptyTermKeepsPopulated(schedules: seq<Schedule>)
    requires forall i :: 0 <= i < |schedules| ==>
               schedules[i].staff.Some? && schedules[i].department.Some?
               && (schedules[i].staff.value.firstName.Some? || schedules[i].staff.value.lastName.Some?
                   || schedules[i].department.value.name.Some?)
    ensures FilteredSchedules(schedules, "") == schedules
  {
    var p := (sc: Schedule) => SearchMatches(sc, "");
    forall i | 0 <= i < |schedules| ensures p(schedules[i]) {
      var sc := schedules[i];
      if sc.staff.value.firstName.Some? {
        IncludesEmpty(Lower(sc.staff.value.firstName.value));
      } else if sc.staff.value.lastName.Some? {
        IncludesEmpty(Lower(sc.staff.value.lastName.value));
      } else {
        IncludesEmpty(Lower(sc.department.value.name.value));
      }
    }
    FilterKeepsAll(schedules, p);
  }

  /** `{ ...schedule, ...editData }`. */
  function Merge(sc: Schedule, e: EditData): (r: Schedule)
    ensures r.id == sc.id && r.staff == sc.staff && r.department == sc.department && r.shiftDate == sc.shiftDate
    ensures r.status == sc.status
    ensures r.shiftType == e.shiftType && r.startTime == e.startTime && r.endTime == e.endTime
    ensures r.notes == Some(e.notes)
  {
    sc.(shiftType := e.shiftType, startTime := e.startTime, endTime := e.endTime, notes := Some(e.notes))
  }

  function EditValue(e: EditData, k: EditField): string {
    match k
    case EditShiftType => e.shiftType
    case EditStartTime => e.startTime
    case EditEndTime => e.endTime
    case EditNotes => e.notes
  }

  function WithEdit(e: EditData, k: EditField, value: string): (r: EditData)
    ensures EditValue(r, k) == value
    ensures forall g :: g != k ==> EditValue(r, g) == EditValue(e, g)
  {
    match k
    case EditShiftType => e.(shiftType := value)
    case EditStartTime => e.(startTime := value)
    case EditEndTime => e.(endTime := value)
    case EditNotes => e.(notes := value)
  }

  class PreviewState {
    var schedules: seq<Schedule>
    var selected: Option<Schedule>
    var isEditing: bool
    var editData: EditData

    constructor ()
      ensures schedules == [] && selected.None? && !isEditing && editData == EmptyEdit
    {
      schedules := [];
      selected := None;
      isEditing := false;
      editData := EmptyEdit;
    }

    /** `fetchSchedules`: a loaded non-empty list selects its first shift; an empty one leaves the selection. */
    method Load(response: Option<seq<Schedule>>)
      modifies this`schedules, this`selected
      ensures schedules == if response.Some? then response.value else []
      ensures response.Some? && |response.value| > 0 ==> selected == Some(response.value[0])
      ensures response.None? || |response.value| == 0 ==> selected == old(selected)
    {
      if response.Some? {
        schedules := response.value;
        if |response.value| > 0 {
          selected := Some(response.value[0]);
        }
      } else {
        schedules := [];
      }
    }

    /** A click on a listed shift. */
    method Select(sc: Schedule)
      modifies this`selected
      ensures selected == Some(sc)
    {
      selected := Some(sc);
    }

    /** `handleEdit`: with a shift selected, copy its four fields into the buffer (missing notes as '') and start editing. */
    method HandleEdit()
      modifies this`isEditing, this`editData
      ensures selected.None? ==> isEditing == old(isEditing) && editData == old(editData)
      ensures selected.Some? ==> isEditing
      ensures selected.Some? ==>
              var sc := selected.value;
              editData == EditData(sc.shiftType, sc.startTime, sc.endTime, OrElse(sc.notes, ""))
    {
      if selected.Some? {
        var sc := selected.value;
        isEditing := true;
        editData := EditData(sc.shiftType, sc.startTime, sc.endTime, OrElse(sc.notes, ""));
      }
    }

    /**
     * `handleSave`: with a shift selected, send the buffer; when the server
     * accepts it, every listed shift with the selected id takes the buffer's
     * fields, the rest of the list is unchanged, and editing ends. A refused
     * save changes nothing.
     */
    method HandleSave(serverAccepts: bool) returns (sent: Option<(string, EditData)>)
      modifies this`schedules, this`selected, this`isEditing
      ensures sent.Some? <==> old(selected).Some?
      ensures sent.Some? ==> sent.value == (old(selected).value.id, editData)
      ensures sent.Some? && serverAccepts ==>
              && |schedules| == |old(schedules)|
              && (forall i :: 0 <= i < |schedules| && old(schedules)[i].id == old(selected).value.id ==>
                    schedules[i] == Merge(old(schedules)[i], editData))
              && (forall i :: 0 <= i < |schedules| && old(schedules)[i].id != old(selected).value.id ==>
                    schedules[i] == old(schedules)[i])
              && selected == Some(Merge(old(selected).value, editData))
              && !isEditing
      ensures sent.None? || !serverAccepts ==>
              schedules == old(schedules) && selected == old(selected) && isEditing == old(isEditing)
    {
      if selected.None? {
        return None;
      }
      var id := selected.value.id;
      sent := Some((id, editData));
      if serverAccepts {
        var e := editData;
        schedules := ReplaceWhere(schedules, (sc: Schedule) => sc.id == id, (sc: Schedule) => Merge(sc, e));
        selected := Some(Merge(selected.value, editData));
        isEditing := false;
      }
    }

    /** `handleCancel`: stop editing and clear the buffer. */
    method HandleCancel()
      modifies this`isEditing, this`editData
      ensures !isEditing && editData == EmptyEdit
    {
      isEditing := false;
      editData := EmptyEdit;
    }

    /** `handleInputChange`: sets exactly the named buffer field. */
    method HandleInputChange(k: EditField, value: string)
      modifies this`editData
      ensures EditValue(editData, k) == value
      ensures forall g :: g != k ==> EditValue(editData, g) == EditValue(old(editData), g)
    {
      editData := WithEdit(editData, k, value);
    }
  }
}
