/**
 * The patient's appointment list: which appointments are upcoming and which
 * past, the badge colour of a status, and the summary counts. The wall clock
 * is the parameter `nowMs`, milliseconds since 1970-01-01 in local time.
 */
module AppointmentsView {
  import opened Text
  import opened Calendar
  import opened Seqs

  /**
   * An appointment as listed; `date` is the calendar day the browser reads
   * from the stored date text.
   */
  datatype Appointment = Appointment(
    id: string,
    doctorId: string,
    department: string,
    date: Date,
    timeSlot: string,
    status: string)

  const MsPerMinute := 60000

  /**
   * The instant `setHours(hours, minutes, 0, 0)` gives on the appointment's
   * day, with both parts read by `Number` from the slot split at ':'; a
   * missing or unreadable part gives an invalid date (None). Out-of-range
   * hours and minutes roll over into the neighbouring days, as `setHours` does.
   */
  function SlotInstant(date: Date, timeSlot: string): (r: Option<int>)
  {
    var parts := Split(timeSlot, ':');
    if |parts| < 2 then None
    else
      var h := ToNumber(parts[0]);
      var m := ToNumber(parts[1]);
      if h.None? || m.None? then None
      else Some((CivilDayNumber(date) * 1440 + h.value * 60 + m.value) * MsPerMinute)
  }

  /** `isUpcoming`: the appointment's instant is strictly after now; an invalid one never is. */
  predicate IsUpcoming(date: Date, timeSlot: string, nowMs: int) {
    var t := SlotInstant(date, timeSlot);
    t.Some? && t.value > nowMs
  }

  /**
   * On `HH:MM` text with digit hours `h` and minutes `m`, an appointment is
   * upcoming exactly when that minute of its day lies after now.
   */
  lemma UpcomingOfClockText(date: Date, hh: string, mm: string, h: nat, m: nat, nowMs: int)
    requires hh != [] && AllDigits(hh) && DecimalValue(hh) == h
    requires mm != [] && AllDigits(mm) && DecimalValue(mm) == m
    ensures IsUpcoming(date, hh + ":" + mm, nowMs) <==>
            (CivilDayNumber(date) * 1440 + h * 60 + m) * MsPerMinute > nowMs
  {
    assert ':' !in hh by {
      forall i | 0 <= i < |hh| ensures hh[i] != ':' { assert IsDigit(hh[i]); }
    }
    assert ':' !in mm by {
      forall i | 0 <= i < |mm| ensures mm[i] != ':' { assert IsDigit(mm[i]); }
    }
    SplitAtFirst(hh, ':', mm);
    SplitNoSeparator(mm, ':');
    assert Split(hh + ":" + mm, ':') == [hh, mm];
  }

  predicate IsConfirmed(status: string) {
    Lower(status) == "confirmed"
  }

  predicate ListedUpcoming(a: Appointment, nowMs: int) {
    IsUpcoming(a.date, a.timeSlot, nowMs) && IsConfirmed(a.status)
  }

  predicate ListedPast(a: Appointment, nowMs: int) {
    !IsUpcoming(a.date, a.timeSlot, nowMs) || !IsConfirmed(a.status)
  }

  /** `upcomingAppointments`: confirmed appointments still ahead, in list order. */
  function Upcoming(apts: seq<Appointment>, nowMs: int): (r: seq<Appointment>)
    ensures forall i :: 0 <= i < |r| ==> IsUpcoming(r[i].date, r[i].timeSlot, nowMs) && IsConfirmed(r[i].status)
  {
    Filter(apts, a => ListedUpcoming(a, nowMs))
  }

  /** `pastAppointments`: everything else, in list order. */
  function Past(apts: seq<Appointment>, nowMs: int): (r: seq<Appointment>)
    ensures forall i :: 0 <= i < |r| ==> !IsUpcoming(r[i].date, r[i].timeSlot, nowMs) || !IsConfirmed(r[i].status)
  {
    Filter(apts, a => ListedPast(a, nowMs))
  }

  /**
   * The two lists split the appointments: together they hold each exactly as
   * often as the list does, so their lengths add up to the total, and no
   * appointment is in both.
   */
  lemma UpcomingPastPartition(apts: seq<Appointment>, nowMs: int)
    ensures |Upcoming(apts, nowMs)| + |Past(apts, nowMs)| == |apts|
    ensures multiset(Upcoming(apts, nowMs)) + multiset(Past(apts, nowMs)) == multiset(apts)
    ensures forall a :: a in Upcoming(apts, nowMs) ==> a !in Past(apts, nowMs)
  {
    FilterPartition(apts, a => ListedUpcoming(a, nowMs), a => ListedPast(a, nowMs));
  }

  /** An appointment ahead whose status is not "confirmed" (say "Pending") is listed as past. */
  lemma UnconfirmedFutureIsPast(apts: seq<Appointment>, nowMs: int, i: int)
    requires 0 <= i < |apts|
    requires IsUpcoming(apts[i].date, apts[i].timeSlot, nowMs) && !IsConfirmed(apts[i].status)
    ensures apts[i] in Past(apts, nowMs) && apts[i] !in Upcoming(apts, nowMs)
  {
    FilterKeeps(apts, a => ListedPast(a, nowMs), i);
  }

  /** The "Confirmed" summary figure. */
  function ConfirmedCount(apts: seq<Appointment>): (n: nat)
    ensures n <= |apts|
  {
    |Filter(apts, (a: Appointment) => IsConfirmed(a.status))|
  }

  /** The "Upcoming" figure never exceeds the "Confirmed" one. */
  lemma UpcomingAtMostConfirmed(apts: seq<Appointment>, nowMs: int)
    ensures |Upcoming(apts, nowMs)| <= ConfirmedCount(apts)
  {
    FilterMonotone(apts, a => ListedUpcoming(a, nowMs), (a: Appointment) => IsConfirmed(a.status));
  }

  const ConfirmedBadge := "bg-green-100 text-green-800 border-green-300"
  const PendingBadge := "bg-yellow-100 text-yellow-800 border-yellow-300"
  const CancelledBadge := "bg-red-100 text-red-800 border-red-300"
  const CompletedBadge := "bg-blue-100 text-blue-800 border-blue-300"
  const DefaultBadge := "bg-gray-100 text-gray-800 border-gray-300"

  /** `getStatusColor`: the badge classes of a status, compared lower-cased. */
  function StatusColor(status: string): (c: string)
    ensures c == ConfirmedBadge <==> Lower(status) == "confirmed"
    ensures c == PendingBadge <==> Lower(status) == "pending"
    ensures c == CancelledBadge <==> Lower(status) == "cancelled"
    ensures c == CompletedBadge <==> Lower(status) == "completed"
    ensures c == DefaultBadge <==> Lower(status) !in ["confirmed", "pending", "cancelled", "completed"]
  {
    match Lower(status)
    case "confirmed" => ConfirmedBadge
    case "pending" => PendingBadge
    case "cancelled" => CancelledBadge
    case "completed" => CompletedBadge
    case _ => DefaultBadge
  }

  /** Statuses that differ only in letter case get the same badge. */
  lemma StatusColorIgnoresCase(status: string)
    ensures StatusColor(status) == StatusColor(Lower(status))
  {
    LowerIdempotent(status);
  }
}
