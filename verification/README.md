# Appointment-derivation model of the OnlineAppointmentBooking client

This project is a Dafny model of the logic inside the React booking client's screens that
derives data from appointment records. It covers:

- the tab filters and their badge counts;
- the statistics cards;
- the sorted and truncated preview lists;
- the two cancellation rules;
- the per-status action buttons;
- the local list updates made after a successful server call;
- the two time-slot generators and the end time derived on submit;
- the route guard.

Every operation is a pure function of immutable sequences of records. The current time is
an explicit parameter, and so are the start of the local day and today's ISO date string.

The two record shapes follow the two API styles of the client (module `Appointments`):

- `Booking` is what the service-backed user and provider screens see. It has an
  `appointmentDate` instant in integer milliseconds and an optional `timeSlot.start`.
- `Visit` is what the doctor, patient and admin screens see. It has separate `date` and
  `time` strings, plus the instant `new Date(date + ' ' + time)` denotes.

Statuses the screens do not know become `Other`. Filter keys a screen does not know become
`Unrecognised`, or fall to the screen's `default` branch.

Each screen keeps its own variant, because the differences between them are behaviour:

- Provider `upcoming` excludes completed records; the user screen's does not.
- Doctor Manage offers Cancel on confirmed appointments; the dashboards do not.
- The provider dashboard counts statuses with an else-if chain; the provider appointments
  screen uses independent `if`s.

Shared building blocks:

- `Seqs` holds an order-preserving filter, a count, a take and a subsequence relation.
- `Ordering` holds a stable insertion sort over any total preorder, the shared
  filter-sort-slice shape `TopN`, and a lexicographic string order `TextLt`. `TextLt`
  compares code points, which is JavaScript's `<` for text inside the Basic Multilingual
  Plane, such as ISO dates and clock labels.
- `Text` holds decimal rendering, zero padding and an independent "H:MM" parser,
  `ClockMinutes`. The time-slot lemmas use the parser to state which clock time each
  label denotes.

The doctor dashboard's local status update (src/components/Doctor/DoctorDashboard.js:28-32)
is the same `map` as the one on the manage screen. It is modelled once, as
`ManageAppointments.SetStatus`.

The provider dashboard's cards (src/components/Provider/ProviderDashboard.js:377-403)
offer the same buttons as the provider appointments screen. They are modelled once, as
`ProviderAppointments.Actions`.

## Model

| member | source | states |
|---|---|---|
| Appointments.WalkAdvances | src/components/Doctor/ManageAppointments.js:274-310 | along any chain of transitions offered by the action buttons, each step moves strictly further through the lifecycle |
| Appointments.WalkIsShortAndSimple | src/components/Doctor/ManageAppointments.js:274-310 | the lifecycle the buttons offer has no cycles: a chain of button presses never revisits a status and has at most two steps |
| UserAppointments.FilterAppointments | src/components/User/UserAppointments.js:44-58 | the tab list is an order-preserving subsequence of the input that keeps every copy of a record matching the tab and no copy of any other; `upcoming` holds exactly the records not before now and not cancelled, so it never holds a cancelled record; `past` holds exactly those before now or completed; `cancelled` holds exactly the cancelled ones; `all` and any unknown key return the input unchanged |
| UserAppointments.CanCancel | src/components/User/UserAppointments.js:60-68 | cancelling is offered exactly when the status is pending or confirmed and the appointment is more than 86 400 000 ms ahead; the real-valued hour quotient is proved equivalent to this; a completed or cancelled record is never cancellable |
| UserAppointments.CancelBoundary | src/components/User/UserAppointments.js:63-67 | for a pending or confirmed appointment, one exactly 24 hours ahead cannot be cancelled and one a millisecond later can |
| UserAppointments.CountTabs | src/components/User/UserAppointments.js:84-110 | the All badge is the list length, and no badge exceeds it |
| UserAppointments.TabCountsMatchFilters | src/components/User/UserAppointments.js:84-110 | each tab badge equals the length of the list the same tab shows |
| UserAppointments.CountAgrees | src/components/User/UserAppointments.js:90-110 | a badge's inline count and the tab's filter agree, by induction on the list |
| UserAppointments.EveryRecordHasATab | src/components/User/UserAppointments.js:49-54 | every record is listed under at least one of Upcoming, Past and Cancelled |
| UserAppointments.CompletedFutureIsInBothTabs | src/components/User/UserAppointments.js:49-52 | a completed appointment whose date has not passed is listed under both Upcoming and Past |
| ProviderAppointments.FilterAppointments | src/components/Provider/ProviderAppointments.js:45-67 | the tab list is an order-preserving subsequence of the input holding exactly the records the tab's predicate accepts; `all` and every key this screen does not filter on (`past`, `cancelled`, unknown) keep the whole list |
| ProviderAppointments.TabContents | src/components/Provider/ProviderAppointments.js:50-63 | `pending`, `confirmed` and `completed` keep exactly their status; `today` keeps exactly the records in [midnight, midnight + 1 day), whatever their status; `upcoming` keeps records not before now that are neither cancelled nor completed |
| ProviderAppointments.GetFilterCounts | src/components/Provider/ProviderAppointments.js:69-88 | `all` is the list length; pending + confirmed + completed never exceeds it; nor do upcoming or today; upcoming + completed never exceeds it either |
| ProviderAppointments.BadgeSnoc | src/components/Provider/ProviderAppointments.js:79-84 | one more record raises a tab's badge by one exactly when the record matches that tab |
| ProviderAppointments.BadgeMatchesFilter | src/components/Provider/ProviderAppointments.js:45-88 | at the same reference time, every badge of the one-pass count equals the length of the list its tab shows |
| ProviderAppointments.Actions | src/components/Provider/ProviderAppointments.js:282-308 | a pending card offers confirm and decline (cancelled); a confirmed card offers complete only; completed and cancelled cards offer nothing; every offered action is an allowed lifecycle step |
| ManageAppointments.SetStatus | src/components/Doctor/ManageAppointments.js:36-40 | length and order are kept; every record keeps all its fields except status; records with the matching id take the new status and the others keep theirs |
| ManageAppointments.SetNotes | src/components/Doctor/ManageAppointments.js:60-64 | length and order are kept; only the notes of records with the matching id change, and they become the new notes |
| ManageAppointments.SetStatusIdempotent | src/components/Doctor/ManageAppointments.js:36-40 | applying the same status update twice gives the same list as applying it once |
| ManageAppointments.Select | src/components/Doctor/ManageAppointments.js:76-86 | each record occurs in the result as often as in the input if it passes both filters, and not at all otherwise; with status `all` and an empty date the input is returned unchanged |
| ManageAppointments.FilteredAppointments | src/components/Doctor/ManageAppointments.js:75-94 | the result is a permutation of the records that pass the status filter (none when `all`) and the exact-date filter (none when empty), sorted by non-decreasing date-time instant |
| ManageAppointments.GreyingIgnoresStatus | src/components/Doctor/ManageAppointments.js:127-130 | whether a card counts as upcoming depends only on its instant being strictly after now, never on its status |
| ManageAppointments.AppointmentStats | src/components/Doctor/ManageAppointments.js:132-143 | `total` is the list length; each status count is the length of the list holding exactly that status; today's count is the length of the list dated today, and does not exceed the total |
| ManageAppointments.StatusCountsPartition | src/components/Doctor/ManageAppointments.js:133-137 | the four status counts plus the records of unknown status add up to the total |
| ManageAppointments.StatusCountsBounded | src/components/Doctor/ManageAppointments.js:133-137 | pending + confirmed + completed + cancelled is at most the total, and equals it when every status is one of the four |
| ManageAppointments.TodayCountIsDateFilter | src/components/Doctor/ManageAppointments.js:139-140 | the Today card counts exactly the records the date filter keeps for today's date string |
| ManageAppointments.NotesDoNotAffectStats | src/components/Doctor/ManageAppointments.js:60-64 | editing notes never changes any statistic |
| ManageAppointments.Actions | src/components/Doctor/ManageAppointments.js:274-310 | the buttons offered are exactly the allowed lifecycle steps: pending can be confirmed or cancelled, confirmed can be completed or cancelled, nothing else |
| DoctorDashboard.UpcomingAppointments | src/components/Doctor/DoctorDashboard.js:49-55 | a permutation of exactly the pending or confirmed records whose date string is not before today, sorted soonest first |
| DoctorDashboard.PastAppointments | src/components/Doctor/DoctorDashboard.js:57-62 | a permutation of exactly the records dated before today or completed or cancelled, sorted most recent first |
| DoctorDashboard.PastSection | src/components/Doctor/DoctorDashboard.js:168 | the past section shows the first ten records of the past list (all of them when there are fewer), and none of them is older than a hidden one |
| DoctorDashboard.SectionsDisjoint | src/components/Doctor/DoctorDashboard.js:49-62 | no record is in both the upcoming and the past section |
| DoctorDashboard.UpcomingOrPast | src/components/Doctor/DoctorDashboard.js:52-53 | a record with one of the four statuses is upcoming or past, but never both |
| DoctorDashboard.SectionsCover | src/components/Doctor/DoctorDashboard.js:49-62 | when every status is one of the four, every record is in one of the two sections |
| DoctorDashboard.SectionSizesAddUp | src/components/Doctor/DoctorDashboard.js:49-62 | when every status is one of the four, the two sections together are as long as the list |
| DoctorDashboard.FinishedLeavesUpcoming | src/components/Doctor/DoctorDashboard.js:28-32 | after a record is completed or cancelled by the local update, no record with its id remains in the upcoming section |
| DoctorDashboard.Actions | src/components/Doctor/DoctorDashboard.js:130-153 | a pending card offers confirm and cancel; a confirmed card offers complete only; every offered action is an allowed lifecycle step |
| DoctorDashboard.UpcomingCardsHaveActions | src/components/Doctor/DoctorDashboard.js:130-153 | every card in the upcoming section offers at least one action |
| ProviderDashboard.Tally | src/components/Provider/ProviderDashboard.js:67-81 | each record raises `total` by one; pending, confirmed and completed each rise by one exactly for a record of that status and never fall, so at most one of them rises; `today` rises exactly when the record lies in today's window |
| ProviderDashboard.ComputeStats | src/components/Provider/ProviderDashboard.js:67-81 | `total` is the list length, pending + confirmed + completed does not exceed it, and neither does today; the values are pinned by ProviderDashboard.AgreesWithAppointmentsScreen and ProviderDashboard.TodayStatIsDayFilter |
| ProviderDashboard.TodayStatIsDayFilter | src/components/Provider/ProviderDashboard.js:76-78 | the today statistic is the number of records in [midnight, midnight + 1 day), whatever their status |
| ProviderDashboard.TodayAppointments | src/components/Provider/ProviderDashboard.js:92-106 | five records, or every record of the day when there are fewer; each taken from the input (no record repeated beyond its multiplicity) and in today's window, ordered by start text with a missing or empty start read as "00:00"; a record of the day that starts before a shown one is itself shown |
| ProviderDashboard.TodayPreviewKeepsCopies | src/components/Provider/ProviderDashboard.js:92-106 | a record of the day that starts strictly before a shown one is shown with every copy it has in the input |
| ProviderDashboard.PreviewLength | src/components/Provider/ProviderDashboard.js:76-106 | the preview's length is the smaller of five and the today statistic |
| ProviderDashboard.AgreesWithAppointmentsScreen | src/components/Provider/ProviderDashboard.js:70-78 | the dashboard's else-if chain and the appointments screen's independent counts give the same total, pending, confirmed, completed and today numbers |
| UserDashboard.Tally | src/components/User/UserDashboard.js:61-67 | each record raises `total` by one; completed rises exactly for a completed record, cancelled exactly for a cancelled one, and upcoming exactly for a record that is neither and not before now; no counter falls, and at most one of the three rises |
| UserDashboard.ComputeStats | src/components/User/UserDashboard.js:61-67 | `total` is the list length, and completed + cancelled + upcoming does not exceed it; the three values are pinned by UserDashboard.TerminalStatsAreCounts and UserDashboard.UpcomingStatMeaning |
| UserDashboard.UpcomingStatMeaning | src/components/User/UserDashboard.js:63-65 | the upcoming statistic counts exactly the records that are neither completed nor cancelled and whose date is not before now |
| UserDashboard.UpcomingStatIsFilter | src/components/User/UserDashboard.js:61-67 | the reducer's upcoming count equals the length of that filter, by induction on the list |
| UserDashboard.TerminalStatsAreCounts | src/components/User/UserDashboard.js:63-64 | the Completed and Cancelled statistics count exactly the records of that status, whatever their date |
| UserDashboard.TerminalStatsAreFilters | src/components/User/UserDashboard.js:61-67 | the reducer's completed and cancelled counts equal the lengths of the status filters, by induction on the list |
| UserDashboard.UpcomingPreview | src/components/User/UserDashboard.js:78-85 | three of the records not before now and not cancelled, or all of them when there are fewer; each taken from the input, no record repeated beyond its multiplicity, soonest first; an eligible record earlier than a shown one is shown with every copy it has in the input |
| Ordering.TopN | src/components/User/UserDashboard.js:78-85 | the filter-sort-slice chain keeps min(n, number passing the filter) elements, each from the input and passing the filter, within the input's multiplicities, in comparator order; every copy of an element passing the filter that sorts strictly before a shown one is shown |
| UserDashboard.PreviewCanShowUncountedRecord | src/components/User/UserDashboard.js:63-65 | a completed appointment whose date is still ahead appears in the preview but not in the upcoming statistic |
| AdminDashboard.GetStats | src/components/Admin/AdminDashboard.js:46-62 | the user and appointment totals are the list lengths; each category count is the length of the list filtered to that user type or status; doctors + patients never exceed the users; pending + completed never exceed the appointments |
| AdminDashboard.ToggleUserStatus | src/components/Admin/AdminDashboard.js:35-39 | length and order are kept; only `isActive` can change, and it flips exactly on the users with the matching id |
| AdminDashboard.ToggleTwiceRestores | src/components/Admin/AdminDashboard.js:35-39 | toggling the same id twice restores the original list |
| AdminDashboard.ToggleKeepsStats | src/components/Admin/AdminDashboard.js:35-62 | toggling a user never changes the overview statistics |
| PatientDashboard.CancelAppointment | src/components/Patient/PatientDashboard.js:26-36 | if the user declines or the request fails, the list is unchanged; after a confirmed and successful cancel, no record with that id remains, and every other record is kept, with all its copies, in its original order |
| PatientDashboard.CancelLength | src/components/Patient/PatientDashboard.js:30 | with unique ids, the list shrinks by exactly one if the id was present and not at all otherwise |
| PatientDashboard.TimeGuardIsTheOnlyDifference | src/components/Patient/PatientDashboard.js:100 | the patient screen offers Cancel for any pending or confirmed appointment; the user screen's rule is the same rule plus the more-than-a-day guard |
| BookAppointment.NextHour | src/components/User/BookAppointment.js:76-78 | the end-time text replacement leaves a string with no "dd:" match unchanged |
| BookAppointment.NextHourOfLabel | src/components/User/BookAppointment.js:76-78 | for a zero-padded "HH:" prefix, the replacement adds one hour and leaves the minutes alone |
| BookAppointment.HourLabelFacts | src/components/User/BookAppointment.js:51-52 | a zero-padded hour label reads back as its hour on the clock, and the submit replacement turns it into the next hour's label |
| BookAppointment.OpeningAndClosingLabels | src/components/User/BookAppointment.js:49-52 | the labels for hours 9 and 17 are "09:00" and "17:00" |
| BookAppointment.HourSlotFacts | src/components/User/BookAppointment.js:50-53 | a slot's value is its start, its start and end are one hour apart on the clock, and the end derived on submit from its value is its end |
| BookAppointment.SlotsAreConsecutiveHours | src/components/User/BookAppointment.js:48-56 | slot i starts at 9 + i o'clock and ends an hour later, and its value is its start |
| BookAppointment.SubmittedEndIsSlotEnd | src/components/User/BookAppointment.js:52 | for every generated slot, the end derived at submit equals the end the slot displayed |
| BookAppointment.SlotsAreInTextOrder | src/components/User/BookAppointment.js:49-53 | the slot starts strictly increase as text, as well as on the clock |
| BookAppointment.SlotsSpanTheWorkingDay | src/components/User/BookAppointment.js:49-53 | the first slot starts at "09:00" and the last ends at "17:00" |
| BookAppointment.GenerateTimeSlots | src/components/User/BookAppointment.js:47-57 | exactly eight slots for hours 09 to 16; each one hour long with value equal to start; the submitted end of each is its own end |
| BookAppointment.ChangeDate | src/components/User/BookAppointment.js:38-45 | a date change stores the new date, clears the chosen slot and keeps the other fields |
| BookAppointment.SubmitRequest | src/components/User/BookAppointment.js:66-90 | the request carries the route's provider id, the chosen slot as start, and the form's other fields; for a generated slot the end is the next hour's label; an empty choice gives an empty end |
| PatientBooking.HalfHourLabelMinutes | src/components/Patient/BookAppointment.js:59-60 | an unpadded "h:00" or "h:30" label reads back as h hours, plus 30 minutes for the half |
| PatientBooking.LabelAtMinutes | src/components/Patient/BookAppointment.js:57-61 | the k-th label of the list is 30·k minutes after 9:00 |
| PatientBooking.LabelsOfHour | src/components/Patient/BookAppointment.js:58-60 | each hour contributes its ":00" label and then its ":30" label at consecutive positions |
| PatientBooking.HalfHourChoices | src/components/Patient/BookAppointment.js:57-61 | a list labelled this way runs through consecutive half hours, so no label repeats |
| PatientBooking.TimeSlots | src/components/Patient/BookAppointment.js:56-61 | exactly 17 choices in chronological order, 30 minutes apart from 9:00: every hour 9 to 17 on the hour, 9 to 16 also at half past; all distinct; the first is "9:00", the last is "17:00", and "17:30" is absent |
| PatientBooking.OpeningAndClosingLabels | src/components/Patient/BookAppointment.js:58-60 | the first label is "9:00" and the last "17:00", without zero padding; none of the 17 positions is "17:30" |
| PatientBooking.ChoicesAreNotInTextOrder | src/components/Patient/BookAppointment.js:59 | because hours are not padded, "10:00" sorts before "9:00" as text |
| ProtectedRoute.Decide | src/components/Auth/ProtectedRoute.js:19-34 | while loading, always the spinner; otherwise with no user, a redirect to /login; a user whose role is not in a non-empty role list goes to /; access is granted exactly when not loading, a user is present, and the list is empty or holds the role |
| ProtectedRoute.WideningRolesKeepsAccess | src/components/Auth/ProtectedRoute.js:28 | adding a role to a non-empty list never turns away a user who was admitted |

## Left out

- HTTP calls, session storage, toasts and routing glue. The local list updates are modelled
  for the successful case. A failed request leaves the list unchanged, which is stated only
  for the patient cancel, where the outcome is a parameter.
- Display formatting: dates, times, status colours, greetings and animation.
- JavaScript `Date` parsing and time zones:
  - `new Date(date + ' ' + time)` is a given instant on each `Visit`.
  - The local midnight and the UTC `toISOString()` "today" string are parameters.
  - A day window is exactly 86 400 000 ms, so daylight-saving days are not modelled.
  - Invalid dates (NaN) are not modelled.
- Each screen calls `new Date()` per record. The model uses one `now` for the whole pass.
- `Array.prototype.sort` sorts in place, which mutates the state array when no filter
  applies. The model returns a fresh sequence. The engine's sort algorithm is modelled as
  a stable insertion sort with the same comparator.
- `localeCompare` on start times is modelled as the lexicographic code-point order
  `TextLt`. Locale collation can order strings differently: it puts `:` before the
  digits, so it sorts "1:00" before "10:00" where `TextLt` does the reverse. The user
  booking form produces zero-padded "HH:MM" starts, for which the difference does not
  arise, but the model does not prove that collation agrees with `TextLt`.
- UserAppointments.CanCancel divides as a real number. It is proved equivalent to the
  integer millisecond test. Floating-point rounding of that division is not modelled.
- The lifecycle validator that a design would put behind the action buttons does not
  exist in the client; only the buttons exist. The buttons' implied lifecycle is the
  `Allowed` relation, and every action table is proved to stay inside it.
- The patient booking form posts its fields unchanged. Its submission and the minimum date
  are HTTP and `Date` work, so they are not modelled.
- BookAppointment.GenerateTimeSlots ignores the chosen date, as the client does: the same
  eight slots are produced for every date.
- ProviderAppointments.BadgeMatchesFilter is proved badge by badge for any one key. No
  single lemma states all six badges at once.
- BookAppointment.SubmitRequest states the derived end time for the generated slots and
  for an empty choice. For any other text, the end is whatever `BookAppointment.NextHour`
  gives. That function's contract states only the no-match case, and
  `BookAppointment.NextHourOfLabel` covers zero-padded labels.
