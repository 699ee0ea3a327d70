# Healthcare portal front end: the rules behind the forms

This project models the deterministic logic of a hospital web portal's front
end. The portal has these parts:

- a patient's four-step appointment wizard and the single-page quick booking form;
- the patient's list of appointments;
- the admin's month calendar of shifts, shift list, staff list and shift-assignment dialog;
- the payment page, the cash-payment receipt dialog, and the admin dashboard that reviews coverage and receipts;
- registration and sign-in.

Each component's state is a Dafny `class` whose methods are the component's
handlers. Each method's `ensures` gives the handler's complete new state in
terms of pure functions. The functions are proved against their own
partners: a round trip, a reference predicate, an ordered list of checks,
or a second application.

Everything outside the browser is a parameter:
- the server's answer to each request (`Option`, or an outcome datatype);
- the wall clock (`today`, `nowMs`, the current year and month).

JavaScript behaviour the code relies on is written out explicitly:
- `%` keeps the sign of the dividend (`Clock.JsRem`);
- `new Date(y, m, d)` normalises out-of-range months (`Calendar.CivilDayNumber`, `Calendar.DaysInMonth`);
- `parseInt`, `Number`, `slice(-n)` and `||` with a default are modelled by `Text.ParseInt`, `Text.ToNumber`, `Text.TakeLast` and `Text.OrElse`.

Module layout:
- `text.dfy`, `seqs.dfy`, `validation.dfy`, `calendar.dfy` and `clock.dfy` hold the shared helpers.
- `roster.dfy` holds the staff and shift records shared by the admin views.
- Each other file models one component:

| file | component |
|---|---|
| `booking_wizard.dfy` | app/patient/components/AppointmentForm.tsx |
| `schedule_overview.dfy` | app/admin/components/ScheduleOverview.tsx |
| `schedule_assignment.dfy` | app/admin/components/ScheduleAssignmentModal.tsx |
| `schedule_preview.dfy` | app/admin/components/SchedulePreview.tsx |
| `staff_assignment.dfy` | app/admin/components/StaffAssignment.tsx |
| `appointments_view.dfy` | app/patient/pages/DisplayAppointments.tsx |
| `payment.dfy` | app/payment/page.tsx |
| `registration.dfy` | app/components/RegisterForm.tsx |
| `admin_dashboard.dfy` | app/admin/page.tsx |
| `cash_receipt.dfy` | app/components/CashPaymentReceipt.tsx |
| `login.dfy` | app/components/LoginForm.tsx |
| `quick_appointment.dfy` | app/components/AppointmentForm.tsx |

## Model

| member | source | states |
|---|---|---|
| BookingWizard.WithDetail | app/patient/components/AppointmentForm.tsx:923-928 | the details edit sets exactly the named field; every other field keeps its value |
| BookingWizard.StepError | app/patient/components/AppointmentForm.tsx:947-978 | the gate of a step fails exactly when the step's demands are unmet: a department (step 1); doctor, date and slot (step 2); name, e-mail, phone and a well-formed e-mail (step 3); only steps 1 to 3 can fail |
| BookingWizard.StepErrorIsFirstFailure | app/patient/components/AppointmentForm.tsx:948-977 | the message written is that of the first failing check, in the order doctor, date, slot (and name, e-mail, phone, e-mail form) |
| BookingWizard.GatesIgnorePatientId | app/patient/components/AppointmentForm.tsx:947-978 | no gate depends on the patient id the session effect writes |
| BookingWizard.FilteredDoctors | app/patient/components/AppointmentForm.tsx:268-274 | every doctor kept matches the lower-cased query in the full name or the specialization (else the department), and the result is a sub-multiset of the list |
| BookingWizard.FilteredDoctorsKeepsMatches | app/patient/components/AppointmentForm.tsx:268-274 | no matching doctor is dropped |
| BookingWizard.EmptyQueryKeepsAll | app/patient/components/AppointmentForm.tsx:268-274 | an empty search keeps the whole list in order |
| BookingWizard.StepStateOf | app/patient/components/AppointmentForm.tsx:21-60 | a step is drawn completed iff it is before the current step, and current iff it is the current step |
| BookingWizard.OneCurrentStep | app/patient/components/AppointmentForm.tsx:21-60 | exactly one of the four steps is drawn current |
| BookingWizard.Wizard.constructor | app/patient/components/AppointmentForm.tsx:783-812 | the wizard starts on step 1 with an empty form, empty details with language "English", and no doctors or slots |
| BookingWizard.Wizard.AuthEffect | app/patient/components/AppointmentForm.tsx:818-850 | only a patient's session writes its id into the form and the logged-in id |
| BookingWizard.Wizard.ValidateStep | app/patient/components/AppointmentForm.tsx:947-978 | returns true iff the current step's demands hold; a failure writes the gate's message |
| BookingWizard.Wizard.NextStep | app/patient/components/AppointmentForm.tsx:935-940 | when the gate passes, the step goes up by exactly one and the error is cleared; otherwise the step stays and the gate's message is shown; the gates of all steps behind the current one keep passing |
| BookingWizard.Wizard.PrevStep | app/patient/components/AppointmentForm.tsx:942-945 | the step goes down by one and the error is cleared (the button exists only on steps 2 and 3, lines 1121-1130) |
| BookingWizard.Wizard.SelectDepartment | app/patient/components/AppointmentForm.tsx:166 | only the department changes |
| BookingWizard.Wizard.HandleDoctorSelection | app/patient/components/AppointmentForm.tsx:930-933 | sets the doctor and clears the slot; department and date are kept |
| BookingWizard.Wizard.HandleDateSelect | app/patient/components/AppointmentForm.tsx:227-238 | a day before today, or any day with no doctor, changes nothing; otherwise the date becomes the zero-padded `YYYY-MM-DD` text of the day and the slot is cleared |
| BookingWizard.Wizard.SelectTimeSlot | app/patient/components/AppointmentForm.tsx:394 | only the slot changes, to one of the offered slots |
| BookingWizard.Wizard.HandlePatientDetailsChange | app/patient/components/AppointmentForm.tsx:923-928 | sets exactly the named detail and clears the error |
| BookingWizard.Wizard.DoctorsEffect | app/patient/components/AppointmentForm.tsx:871-891 | no department gives no doctors; a fetched list replaces the doctors; a failed fetch keeps them and writes an error |
| BookingWizard.Wizard.SlotsEffect | app/patient/components/AppointmentForm.tsx:893-914 | with no doctor or no date there are no slots; a fetched list replaces the slots; a failed fetch empties them and writes an error |
| BookingWizard.Wizard.HandleSubmit | app/patient/components/AppointmentForm.tsx:980-1012 | nothing is sent iff the patient id or the logged-in id is missing; a sent booking carries every field the earlier gates demanded; the outcome sets the message or the server's error |
| Calendar.DaysInMonth | app/admin/components/ScheduleOverview.tsx:150-151 | the length of month `month` after JavaScript's month normalisation: 28 to 31, and 29 exactly for February of a leap year |
| Calendar.MonthStepsInverse | app/admin/components/ScheduleOverview.tsx:61-69 | a month forward and a month back, in either order, return to the month shown |
| Calendar.NextMonthStart | app/admin/components/ScheduleOverview.tsx:150-151 | the 1st of the next month falls exactly `DaysInMonth` days after the 1st of the month |
| Calendar.PreviousMonthEnd | app/admin/components/ScheduleOverview.tsx:157 | the last day of the previous month is the day before the 1st |
| Calendar.MonthStartsIncrease | app/patient/components/AppointmentForm.tsx:262-265 | the 1st of a later month comes after every day of an earlier month |
| Calendar.BeforeIsDayOrder | app/patient/components/AppointmentForm.tsx:262-265 | on real days `Before` holds iff the first day's count is smaller, so it is the order `dateToCheck < today` compares on local midnights |
| Calendar.IsoDateRoundTrip | app/patient/components/AppointmentForm.tsx:236 | for a four-digit year the day text is ten characters of digits and dashes, and reading it back gives the same day |
| Clock.JsRem | app/admin/components/ScheduleOverview.tsx:142 | the remainder has the sign of the dividend and lies strictly within the divisor |
| Clock.Hour12 | app/admin/components/ScheduleOverview.tsx:142 | `hour % 12 \|\| 12` lies in 1..12 |
| Clock.Hour12RoundTrip | app/admin/components/ScheduleOverview.tsx:138-144 | each hour 0..23 is recovered from its 12-hour hour and the AM/PM mark |
| Clock.FormatTimeOfClockText | app/admin/components/SchedulePreview.tsx:78-84 | on `H:MM` text the result is the 12-hour hour, the minutes copied verbatim, and PM exactly from 12:00 (the same function as ScheduleOverview.tsx:138-144) |
| ScheduleOverview.GetDaysInMonth | app/admin/components/ScheduleOverview.tsx:146-190 | the three loops build exactly the 42-cell grid `MonthGrid` |
| ScheduleOverview.MonthGridShape | app/admin/components/ScheduleOverview.tsx:152-187 | 42 cells: one leading cell per weekday before the 1st, ending on the last day of the month two before the one shown; then days 1..n flagged current; then at least five trailing cells numbered from 1 |
| ScheduleOverview.AtMostOneToday | app/admin/components/ScheduleOverview.tsx:167-177 | at most one cell is flagged today, and it is the current-month cell of today's day, month and year |
| ScheduleOverview.IntendedGridIsConsecutive | app/admin/components/ScheduleOverview.tsx:156-164 | with the previous month's length, the grid shows 42 consecutive days, each a real day of the previous, the shown or the next month |
| ScheduleOverview.IntendedLeadingCell | app/admin/components/ScheduleOverview.tsx:156-164 | with the previous month's length, each leading cell is a real day of that month, as many days before the 1st as it stands before it |
| ScheduleOverview.IntendedTrailingCell | app/admin/components/ScheduleOverview.tsx:180-187 | each trailing cell is a real day of the next month, continuing the count after the month's last day |
| ScheduleOverview.GridDiffersFromIntended | app/admin/components/ScheduleOverview.tsx:157 | the grid as built equals the intended grid iff the month starts on a Sunday or the months one and two before it have the same length |
| ScheduleOverview.March2024LeadingCell | app/admin/components/ScheduleOverview.tsx:157 | March 2024 starts on a Friday, and the cell before 1 March reads 31 although February 2024 has 29 days |
| ScheduleOverview.SchedulesForDate | app/admin/components/ScheduleOverview.tsx:192-197 | every shift listed has that day number and the month shown (the year is not compared), and the result is a sub-multiset of the list |
| ScheduleOverview.SchedulesForDateKeeps | app/admin/components/ScheduleOverview.tsx:192-197 | no shift of that day and month is dropped, whatever its year |
| ScheduleOverview.CellPreview | app/admin/components/ScheduleOverview.tsx:294-308 | only a current-month cell with shifts has a preview; it names the first two shifts and shows "+n more" exactly when there are more, with n the rest |
| ScheduleOverview.CsvRow | app/admin/components/ScheduleOverview.tsx:98-108 | a row has one field per header column |
| ScheduleOverview.DataLines | app/admin/components/ScheduleOverview.tsx:98-114 | one data line per shift |
| ScheduleOverview.Export | app/admin/components/ScheduleOverview.tsx:79-83 | nothing is exported iff the list is empty |
| ScheduleOverview.HeaderColumns | app/admin/components/ScheduleOverview.tsx:86-96 | the header line splits at its commas back into the nine column names |
| ScheduleOverview.CsvLineFields | app/admin/components/ScheduleOverview.tsx:98-112 | a row whose fields hold no comma splits back into its fields, each wrapped in quotes with inner quotes left as they are |
| ScheduleOverview.CsvLines | app/admin/components/ScheduleOverview.tsx:111-114 | when no field holds a line feed, the text splits at line feeds into the header and then one quoted line per shift, in order |
| ScheduleOverview.MonthView.constructor | app/admin/components/ScheduleOverview.tsx:61-73 | the calendar opens on today's month |
| ScheduleOverview.MonthView.NavigateMonth | app/admin/components/ScheduleOverview.tsx:61-69 | the month moves exactly one forward or back, across the year boundary, and stays in 0..11 |
| ScheduleOverview.MonthView.GoToToday | app/admin/components/ScheduleOverview.tsx:71-73 | the month shown becomes today's |
| ScheduleAssignment.WithField | app/admin/components/ScheduleAssignmentModal.tsx:124-129 | sets exactly the named field |
| ScheduleAssignment.DefaultForm | app/admin/components/ScheduleAssignmentModal.tsx:37-45 | shift type "Morning", 08:00 to 17:00, and empty department, date and notes; the staff member is the `selectedStaffId` prop's value when the dialog was mounted, else none |
| ScheduleAssignment.StaffSelectGate | app/admin/components/ScheduleAssignmentModal.tsx:232-247 | a new dialog's staff selector is disabled; after a department is chosen the staff choice is empty and the selector is disabled iff data is loading or the department is the empty option |
| ScheduleAssignment.StaffInDepartment | app/admin/components/ScheduleAssignmentModal.tsx:96-107 | no department keeps everyone; otherwise every member kept has a department with that id, and the result is a sub-multiset of the list |
| ScheduleAssignment.StaffInDepartmentKeeps | app/admin/components/ScheduleAssignmentModal.tsx:96-107 | no member of the department is dropped |
| ScheduleAssignment.EmptyListMessages | app/admin/components/ScheduleAssignmentModal.tsx:251-256 | the two empty-list messages never show together, and an empty list shows one of them once a department, or a date and both times, are set |
| ScheduleAssignment.AssignmentModal.constructor | app/admin/components/ScheduleAssignmentModal.tsx:37-51 | the dialog opens with the default form and empty lists |
| ScheduleAssignment.AssignmentModal.HandleInputChange | app/admin/components/ScheduleAssignmentModal.tsx:124-145 | sets exactly the named field; a new date, time or department also clears the staff choice, and the other fields keep it; a new department narrows the list |
| ScheduleAssignment.AssignmentModal.FilterStaffByDepartment | app/admin/components/ScheduleAssignmentModal.tsx:96-107 | the shown list becomes the department's members |
| ScheduleAssignment.AssignmentModal.OpenEffect | app/admin/components/ScheduleAssignmentModal.tsx:53-64 | available staff are fetched iff the dialog is open with a date and both times; the list becomes the answer, or empty on a failure, and is otherwise unchanged |
| ScheduleAssignment.AssignmentModal.FilterEffect | app/admin/components/ScheduleAssignmentModal.tsx:67-71 | the list is narrowed only while the full list is non-empty |
| ScheduleAssignment.AssignmentModal.FetchAllStaff | app/admin/components/ScheduleAssignmentModal.tsx:83-94 | both lists become the server's list, or empty on failure |
| ScheduleAssignment.AssignmentModal.FetchAvailableStaff | app/admin/components/ScheduleAssignmentModal.tsx:109-122 | the shown list becomes the server's answer, or empty on failure |
| ScheduleAssignment.AssignmentModal.HandleSubmit | app/admin/components/ScheduleAssignmentModal.tsx:147-191 | an empty date throws "Invalid time value"; a request is sent iff staff, department, date and creator are present; a create resets the form and closes the dialog; a failure writes the server's message, its error, the exception text or "Error creating schedule" |
| SchedulePreview.FilteredSchedules | app/admin/components/SchedulePreview.tsx:59-65 | no shift without staff or department is listed; every listed shift has the term in a first, last or department name |
| SchedulePreview.FilteredSchedulesKeeps | app/admin/components/SchedulePreview.tsx:59-65 | no matching shift is dropped |
| SchedulePreview.EmptyTermKeepsPopulated | app/admin/components/SchedulePreview.tsx:59-65 | an empty search keeps every populated shift in order |
| SchedulePreview.Merge | app/admin/components/SchedulePreview.tsx:106-110 | the saved shift takes the buffer's four fields and keeps its id, staff, department, date and status |
| SchedulePreview.WithEdit | app/admin/components/SchedulePreview.tsx:133-139 | sets exactly the named buffer field |
| SchedulePreview.PreviewState.constructor | app/admin/components/SchedulePreview.tsx:24-35 | nothing is loaded, selected or being edited |
| SchedulePreview.PreviewState.Load | app/admin/components/SchedulePreview.tsx:45-49 | the first shift is selected iff the loaded list is non-empty |
| SchedulePreview.PreviewState.Select | app/admin/components/SchedulePreview.tsx:45-49 | the clicked shift becomes the selection |
| SchedulePreview.PreviewState.HandleEdit | app/admin/components/SchedulePreview.tsx:86-96 | acts only with a selection: copies its four fields (missing notes as '') and starts editing |
| SchedulePreview.PreviewState.HandleSave | app/admin/components/SchedulePreview.tsx:103-115 | sends iff a shift is selected; an accepted save rewrites exactly the shifts with the selected id, keeps the length and the others, and ends editing |
| SchedulePreview.PreviewState.HandleCancel | app/admin/components/SchedulePreview.tsx:123-131 | editing stops and the four buffer fields are cleared |
| SchedulePreview.PreviewState.HandleInputChange | app/admin/components/SchedulePreview.tsx:133-139 | sets exactly the named buffer field |
| StaffAssignment.FilteredStaff | app/admin/components/StaffAssignment.tsx:58-60 | no department keeps the whole list; with one, the expression fails iff some member has no department, and otherwise keeps exactly the members of that department |
| StaffAssignment.FilteredStaffKeeps | app/admin/components/StaffAssignment.tsx:58-60 | no member of the chosen department is dropped |
| StaffAssignment.NoStaffFoundIff | app/admin/components/StaffAssignment.tsx:109-111 | "No staff members found" shows iff a department is chosen and no member belongs to it |
| StaffAssignment.AgreesWithDialogFilter | app/admin/components/StaffAssignment.tsx:58-60 | where it does not fail, the page's filter equals the dialog's `StaffInDepartment` |
| StaffAssignment.StaffAssignmentView.constructor | app/admin/components/StaffAssignment.tsx:29-34 | no department, no member chosen, dialog closed |
| StaffAssignment.StaffAssignmentView.SelectDepartment | app/admin/components/StaffAssignment.tsx:58-60 | the chosen department is recorded |
| StaffAssignment.StaffAssignmentView.HandleAssign | app/admin/components/StaffAssignment.tsx:62-65 | records the member and opens the dialog |
| StaffAssignment.StaffAssignmentView.CloseModal | app/admin/components/StaffAssignment.tsx:152-155 | closes the dialog and forgets the member |
| AppointmentsView.UpcomingOfClockText | app/patient/pages/DisplayAppointments.tsx:136-141 | for `HH:MM` text, an appointment is upcoming iff that minute of its day lies strictly after now |
| AppointmentsView.Upcoming | app/patient/pages/DisplayAppointments.tsx:143-145 | every listed appointment is ahead of now and confirmed (case-insensitively) |
| AppointmentsView.Past | app/patient/pages/DisplayAppointments.tsx:147-149 | every listed appointment is not ahead of now or not confirmed |
| AppointmentsView.UpcomingPastPartition | app/patient/pages/DisplayAppointments.tsx:143-149 | the two lists together hold each appointment exactly as often as the list does, their lengths add up to the total, and they are disjoint |
| AppointmentsView.UnconfirmedFutureIsPast | app/patient/pages/DisplayAppointments.tsx:147-149 | an appointment ahead that is not confirmed is listed as past, not upcoming |
| AppointmentsView.ConfirmedCount | app/patient/pages/DisplayAppointments.tsx:349 | the confirmed figure is at most the total |
| AppointmentsView.UpcomingAtMostConfirmed | app/patient/pages/DisplayAppointments.tsx:336-350 | the upcoming figure never exceeds the confirmed figure |
| AppointmentsView.StatusColor | app/patient/pages/DisplayAppointments.tsx:121-134 | confirmed, pending, cancelled and completed (compared lower-cased) get four distinct badges, and anything else gets the default |
| AppointmentsView.StatusColorIgnoresCase | app/patient/pages/DisplayAppointments.tsx:121-134 | statuses that differ only in letter case get the same badge |
| Payment.Chunks | app/payment/page.tsx:209-213 | non-empty text splits into groups of one to four characters, all but the last of four |
| Payment.ChunksJoinRemoveSpaces | app/payment/page.tsx:209-216 | joining the groups with spaces and removing the spaces gives the digits back |
| Payment.ChunksStep | app/payment/page.tsx:209-213 | the groups of text from position i are its next up-to-four characters followed by the groups of the rest |
| Payment.FormatCardNumber | app/payment/page.tsx:204-217 | the loop builds exactly the grouped card-number text |
| Payment.CardNumberDigits | app/payment/page.tsx:204-217 | removing the spaces from the formatted number gives the first up-to-16 digits typed (four or more typed), or the digits typed (fewer than four) |
| Payment.CardNumberIdempotent | app/payment/page.tsx:204-217 | formatting a formatted number changes nothing |
| Payment.FormattedCardNumberValid | app/payment/page.tsx:270-273 | a formatted number passes the 13-to-19-digit rule iff 13 or more digits were typed |
| Payment.ExpiryText | app/payment/page.tsx:261-267 | fewer than two digits typed give those digits; two or more give the first two, '/', then the next up-to-two digits |
| Payment.ExpiryTextDigits | app/payment/page.tsx:261-267 | the digits of the result are the first up-to-four digits typed |
| Payment.ExpiryTextIdempotent | app/payment/page.tsx:261-267 | formatting a formatted expiry changes nothing |
| Payment.ExpiryOfDigits | app/payment/page.tsx:276-285 | for `MM/YY` digit text the card is valid iff YY is after this year (mod 100), or equal with MM at least this month; MM is not range-checked |
| Payment.SanitizeCvv | app/payment/page.tsx:823 | the CVV is the first up-to-four digits typed, four exactly when more were typed |
| Payment.WithCardValue | app/payment/page.tsx:851-856 | sets exactly the named card field |
| Payment.WithError | app/payment/page.tsx:252-255 | only the named field's error entry changes |
| Payment.CardFieldError | app/payment/page.tsx:220-258 | no message iff the field passes its check; an empty value, or a blank cardholder name, gets the field's "required" message |
| Payment.CardChecksAgreeWithMessages | app/payment/page.tsx:330-345 | the payment gate's four card checks pass iff no field gets a message |
| Payment.DefaultPolicyId | app/payment/page.tsx:85 | "POL-" and the last up-to-six characters of the user id, or "POL-123456" without one |
| Payment.PaymentPage.constructor | app/payment/page.tsx:33-94 | the page opens on the coverage tab with no coverage, empty card fields and errors, and no modal |
| Payment.PaymentPage.ValidateCardField | app/payment/page.tsx:220-258 | writes only that field's error, and returns true iff the message is empty |
| Payment.PaymentPage.HandleCardInput | app/payment/page.tsx:764-860 | stores the formatted number, the formatted expiry, the sanitised CVV or the name as typed, then validates that field |
| Payment.PaymentPage.HandlePayment | app/payment/page.tsx:313-424 | stops before any processing when the coverage tab lacks approved coverage or the card tab fails a card check; otherwise shows success, or the declined message for a declined card; the Pay button's rule (page.tsx:1083-1086), when not loading, disables it exactly when a click would stop at the coverage check |
| Registration.WithFieldValue | app/components/RegisterForm.tsx:25-34 | sets exactly the named field |
| Registration.RegisterError | app/components/RegisterForm.tsx:41-67 | no message iff the form is registrable; a password mismatch is reported first, then a short password, then a missing gender, then a malformed e-mail, then a short user name |
| Registration.RegisterErrorIsFirstFailure | app/components/RegisterForm.tsx:41-67 | the message is that of the first failing check in that fixed order |
| Registration.Payload | app/components/RegisterForm.tsx:73 | the payload is the form without the confirmation password |
| Registration.Submission | app/components/RegisterForm.tsx:36-86 | a payload is sent iff the guard passes, and a sent payload has a confirmed password of six or more characters, a gender, a well-formed e-mail and a user name of three or more characters |
| Registration.RegisterForm.constructor | app/components/RegisterForm.tsx:11-23 | an empty form with no error, not loading, not succeeded |
| Registration.RegisterForm.HandleChange | app/components/RegisterForm.tsx:25-34 | sets exactly the named field and clears the error |
| Registration.RegisterForm.HandleSubmit | app/components/RegisterForm.tsx:36-107 | a form failing the guard gets the guard's message and nothing is sent; otherwise the payload is sent and the outcome gives success, the server's message or "Registration failed", or the network message |
| AdminDashboard.DecisionStatus | app/admin/page.tsx:163-169 | approving writes "Approved" and declining "Declined" |
| AdminDashboard.NewCoverageStatus | app/admin/page.tsx:108-109 | the negation of the first record with the id's flag, or true when there is none |
| AdminDashboard.SetActive | app/admin/page.tsx:124-132 | every record with the id takes the flag; length, order and the other records are unchanged |
| AdminDashboard.ToggleFlipsFirst | app/admin/page.tsx:105-132 | the first record with the id changes its flag, and an unknown id changes nothing |
| AdminDashboard.ToggleTwiceRestores | app/admin/page.tsx:105-132 | when the records with the id agree on their flag, toggling twice gives the list back |
| AdminDashboard.ReviewApplications | app/admin/page.tsx:163-169 | every application with the id takes the decision's status; length, order and the others are unchanged |
| AdminDashboard.ReviewReceipts | app/admin/page.tsx:237-243 | every receipt with the id takes the decision's status; length, order and the others are unchanged |
| AdminDashboard.ReviewSettlesApplication | app/admin/page.tsx:388-405 | after a review no application with the id offers Approve or Decline, and a repeated review changes nothing |
| AdminDashboard.LastReceiptReviewWins | app/admin/page.tsx:218-290 | a later review of the same receipt overrides the earlier one |
| AdminDashboard.Dashboard.constructor | app/admin/page.tsx:43-47 | all three lists start empty |
| AdminDashboard.Dashboard.LoadCoverage | app/admin/page.tsx:57-100 | a successful fetch replaces the coverage list; a failure keeps it |
| AdminDashboard.Dashboard.LoadApplications | app/admin/page.tsx:57-100 | a successful fetch replaces the application list; a failure keeps it |
| AdminDashboard.Dashboard.LoadReceipts | app/admin/page.tsx:57-100 | a successful fetch replaces the receipt list; a failure keeps it |
| AdminDashboard.Dashboard.HandleToggleCoverage | app/admin/page.tsx:105-142 | sends the new flag; only a success sets it on the records with the id |
| AdminDashboard.Dashboard.ReviewApplication | app/admin/page.tsx:144-216 | sends the id, the status and the reviewer (the user's id or "admin"); only a success updates the list |
| AdminDashboard.Dashboard.ReviewReceipt | app/admin/page.tsx:218-290 | sends the id, the status and the reviewer; only a success updates the list |
| CashReceipt.DisplayName | app/components/CashPaymentReceipt.tsx:45 | the trimmed "first last", else the user name, else "User"; never empty |
| CashReceipt.NamelessUserShowsUserName | app/components/CashPaymentReceipt.tsx:45 | with neither first nor last name, the user name (or "User") is shown |
| CashReceipt.IdTail | app/components/CashPaymentReceipt.tsx:51 | the last min(6, length) characters of a non-empty id, or "000000" without one |
| CashReceipt.Stamp | app/components/CashPaymentReceipt.tsx:51 | the last min(4, length) characters of the timestamp's decimal text: one to four digits |
| CashReceipt.StampValue | app/components/CashPaymentReceipt.tsx:51 | the stamp's digits read as the timestamp modulo 10000 |
| CashReceipt.ReceiptNumberOf | app/components/CashPaymentReceipt.tsx:51 | "RCP-" then 3 to 11 more characters |
| CashReceipt.ReceiptNumberParts | app/components/CashPaymentReceipt.tsx:51 | when the id's tail has no '-', the number splits at '-' back into "RCP", the id tail and the timestamp digits |
| CashReceipt.Autofilled | app/components/CashPaymentReceipt.tsx:41-55 | name, id, e-mail, phone, amount, deposit reference, receipt number and date are filled in; bank details, transaction id and notes are kept |
| CashReceipt.WithReceiptValue | app/components/CashPaymentReceipt.tsx:57-62 | sets exactly the named field; the amount is kept |
| CashReceipt.EnabledAfterBankDetails | app/components/CashPaymentReceipt.tsx:350 | filling in the bank name and the transaction id enables submitting when idle |
| CashReceipt.ReceiptDialog.constructor | app/components/CashPaymentReceipt.tsx:22-38 | an empty receipt, not submitting, status idle |
| CashReceipt.ReceiptDialog.AutofillEffect | app/components/CashPaymentReceipt.tsx:41-55 | fills the receipt only while open with a signed-in user |
| CashReceipt.ReceiptDialog.HandleInputChange | app/components/CashPaymentReceipt.tsx:57-62 | sets exactly the named field |
| CashReceipt.ReceiptDialog.HandleSubmit | app/components/CashPaymentReceipt.tsx:64-112 | sends the receipt with the user id; the status becomes success or error; submitting is over afterwards |
| CashReceipt.ReceiptDialog.SuccessTimeout | app/components/CashPaymentReceipt.tsx:99-102 | after a success the dialog asks to close and the status returns to idle |
| Login.RouteFor | app/components/LoginForm.tsx:46-59 | Doctor, Patient and Admin go to their own pages, and every other role to "/", each iff |
| Login.LoginResult | app/components/LoginForm.tsx:18-69 | navigation happens iff the answer was OK with a non-empty role, and then there is no error; no role gives "No role assigned to user."; a refusal gives the server's message or "Login failed"; an exception the generic message |
| Login.LoginForm.constructor | app/components/LoginForm.tsx:13-16 | empty fields, no error, not loading |
| Login.LoginForm.SetUserName | app/components/LoginForm.tsx:94 | the user name becomes the text typed |
| Login.LoginForm.SetPassword | app/components/LoginForm.tsx:111 | the password becomes the text typed |
| Login.LoginForm.HandleLogin | app/components/LoginForm.tsx:18-69 | sends user name and password; the route and the error are those of `LoginResult`; loading is over afterwards |
| QuickAppointment.DoctorsFor | app/components/AppointmentForm.tsx:8-12 | a listed department has at least one doctor, and an empty or unknown department none |
| QuickAppointment.DoctorSelectGate | app/components/AppointmentForm.tsx:74-86 | after a department is chosen the doctor selector is disabled iff it is the empty option, which offers no doctors, while a listed department offers some; the doctor choice is kept |
| QuickAppointment.DoctorsBelongToOneDepartment | app/components/AppointmentForm.tsx:8-12 | no doctor is listed under two departments |
| QuickAppointment.TimeSlotsAscending | app/components/AppointmentForm.tsx:14 | the five slots are `HH:MM` texts in strictly increasing order of time |
| QuickAppointment.SlotMinutesOf | app/components/AppointmentForm.tsx:14 | an `HH:MM` text names minute 60·HH + MM of the day |
| QuickAppointment.WithFormValue | app/components/AppointmentForm.tsx:28-34 | sets exactly the named field |
| QuickAppointment.QuickForm.constructor | app/components/AppointmentForm.tsx:17-26 | an empty form with no notices |
| QuickAppointment.QuickForm.HandleChange | app/components/AppointmentForm.tsx:28-34 | sets exactly the named field and clears both message and error |
| QuickAppointment.QuickForm.HandleSubmit | app/components/AppointmentForm.tsx:36-43 | sends the form unchecked; a booking shows the server's message, a failure its error or "Error booking appointment" |

## Findings

| source | as written | input that shows it | evidently intended | confidence | as-written member | corrected member |
|---|---|---|---|---|---|---|
| app/admin/components/ScheduleOverview.tsx:157 | the leading cells count down from `new Date(year, month - 1, 0).getDate()`, the last day of the month two before the one shown | March 2024: the 1st is a Friday, so there are five leading cells numbered 27 to 31; February 2024 ended on the 29th | `new Date(year, month, 0)`: the leading cells are the last days of the previous month, so the grid shows 42 consecutive days | high; not executed | ScheduleOverview.March2024LeadingCell | ScheduleOverview.IntendedGridIsConsecutive |

`ScheduleOverview.GetDaysInMonth` keeps the code's behaviour, and
`ScheduleOverview.GridDiffersFromIntended` says exactly which months are
affected. `ScheduleOverview.IntendedGridCell` is the corrected cell, built
by the same `Cell` function with the previous month's length.

## Left out

- Server requests (the fetch and axios calls and their wrappers in app/utils/api.ts) are parameters: each answer is an `Option` or an outcome value. Slot availability and double-booking checks happen on the server and are not modelled.
- Sessions, cookies and local storage are not modelled. The wizard's session check is reduced to its result (`AuthEffect`). The appointment list's loading chain (DisplayAppointments.tsx:38-109) is left out.
- Dates are not parsed from text. Appointments and shifts carry an already parsed `Date`, and the cash receipt's deposit date is passed in as today's UTC date text. Time zones, `toISOString` (modelled by its result in the assignment dialog's submit) and `toLocaleDateString` (a `formatDate` parameter of the CSV export) are outside the model.
- ScheduleOverview.MonthView.NavigateMonth: the month moves by exactly one. `setMonth` on a day 29 to 31 can skip a month, because the stored day overflows; the model keeps no day.
- Randomness and timers are left out: the simulated card decline rate (a `cardDeclined` parameter), the wizard's random confirmation number, and the redirect delays. The sign-in navigation is the returned route.
- Money is an integer. `toFixed` display and floating-point amounts are left out.
- Text is a sequence of characters. JavaScript measures lengths in UTF-16 code units, so `slice(-6)` and the length checks can differ from the model for characters outside the Basic Multilingual Plane. `toLowerCase` is modelled for ASCII letters only.
- Text.ToNumber: reads decimal integer text only. Hexadecimal, fractional and exponent forms are read as NaN, where JavaScript's `Number` accepts them. Only the clock text of a time slot goes through it.
- The CSV export joins lines with "\n" and does not double embedded quotes, unlike section 2 of RFC 4180. The model keeps the code's behaviour. The Blob, object URL and download link are left out.
- The file upload of the cash-slip image (FileReader, the upload call) is left out.
- Effect ordering races are left out: each effect is a method called in a chosen order. One example is the all-staff and available-staff fetches both writing the shown list (ScheduleAssignmentModal.tsx:88, 117).
- The wizard's generic `handleChange` (AppointmentForm.tsx:916-921) is never attached to an input and is not modelled.
- The quick appointment form's doctor table is a plain object, so `doctors["constructor"]` and other prototype keys would not fall back to `[]` in JavaScript. `QuickAppointment.DoctorsFor` treats every unlisted text as unknown.
- A render that throws is modelled only for the staff page's department filter (`StaffAssignment.FilteredStaff` returns None). Other property reads on missing records are assumed not to happen.
- The admin page's receipt review is modelled, but its tab is not reachable in the page, because the tab state is only ever 'coverage'.
- The staff page's Assign button records a member, but the dialog never starts on that member: its form reads `selectedStaffId` only at mount, which happens while the prop is still empty. `ScheduleAssignment.DefaultForm` takes the mount-time value, and each page model opens the dialog through the constructor with that value; the prop changing afterwards is not modelled.
- Presentation-only parts are not modelled: icons, colours other than the status badges, the welcome name, and the payment modal's styling.
