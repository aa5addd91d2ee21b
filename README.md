# Liceu Sumbe timetable and student planner, in Dafny

This project models the core of a single-page student planner for the Liceu
Sumbe school. It covers the weekly timetable templates of two classes, the
per-day subject overrides that change a template, the current slot and the
next slot, the reminder notifications raised before a lesson, the study
streak, the dashboard timeline and import, the attendance counters and
statistics, the per-subject notes, tasks, grades and custom details, the
study tools (flashcards, scratchpad, questions, school calendar, contacts)
and the Pomodoro timer.

The layout follows the program:

- `Types` holds the stored document (`AppData`) and its records.
- `Text` holds JavaScript string order, decimal text and zero padding.
- `Clock` holds "HH:mm" clock times.
- `Lists` holds the array operations the program uses: `filter`, `find`,
  stable `sort` by a string key, `flatMap`/`forEach`, removal by id, and
  `[...new Set(xs)].sort().reverse()`.
- `Constants` holds the subjects and the timetable templates.
- `Utils` holds the schedule and date helpers.
- `App` holds the reminder check.
- `Timetable`, `Dashboard`, `Attendance`, `Subjects` and `Tools` model the
  pages.
- `Pomodoro` models the timer component.

Each page's `useAppData` state and form fields become a class. Each of its
handlers is a method whose postcondition gives the new document as a pure
function of the old one. The pure functions carry the properties, and
lemmas relate them to each other.

Modelling conventions:

- A calendar date is a day number. Day 0 is Thursday 1 January 1970, so
  `WeekdayOf(d) = (d + 4) % 7`.
- The current instant is a `Moment(date, second)`, where `second` is the
  second of the day.
- `format(now, 'HH:mm')` is `ClockTime(now)`.
- JavaScript's `<` and `localeCompare` on the zero-padded "HH:mm" and
  "yyyy-MM-dd" strings are modelled as code-point lexicographic order (`LexLess`),
  which equals JavaScript's UTF-16 code-unit order on the ASCII strings compared.
  `Clock.TimeOrder` proves that this order agrees with minute order for
  well-formed times.
- Ids from `Date.now()`, ISO timestamps, today's date, the notification
  permission, the canvas image and user confirmations are parameters.

## Model

| member | source | states |
|---|---|---|
| Text.LexIrreflexive | utils.ts:41-44 | no string is before itself in JavaScript string order |
| Text.LexTransitive | utils.ts:33 | string order is transitive |
| Text.LexTotal | utils.ts:33 | any two strings are ordered one way or the other, or are equal |
| Text.LexAsymmetric | utils.ts:41-44 | `a < b` excludes `b < a` |
| Text.LexLessEqTransitive | utils.ts:33 | the non-strict order is transitive, which the sorted-order proofs need |
| Text.NotLessIsGreaterEq | utils.ts:52 | `!(a < b)` holds exactly when `b <= a` |
| Text.NatToString | App.tsx:69 | the decimal text of a number is a non-empty run of digits, one digit long exactly below ten |
| Text.IntToString | App.tsx:69 | a negative number prints as a minus sign followed by its magnitude |
| Text.ParseNatToString | App.tsx:69 | reading the decimal text of a number gives the number back |
| Text.PadTwo | components/PomodoroTimer.tsx:44 | `padStart(2, '0')` keeps the text as its suffix, adds only zeros, and gives at least two characters |
| Text.PadTwoDigits | components/PomodoroTimer.tsx:44 | below 100 the padded text is two digits that read back as the number |
| Text.BlankExamples | pages/Subjects.tsx:52 | text of ideographic space, byte order mark or line separator only is blank for `trim`, and a letter or a zero-width space is not |
| Clock.MinuteOfDay | utils.ts:39 | a well-formed "HH:mm" names a minute of the day below 1440 |
| Clock.FormatTime | utils.ts:39 | formatting a minute of the day gives a well-formed time that reads back as that minute |
| Clock.FormatMinuteOfDay | utils.ts:39 | formatting the minute a well-formed time names gives that time back |
| Clock.TimeEquality | App.tsx:66 | two well-formed times are equal strings exactly when they name the same minute |
| Clock.TimeOrder | utils.ts:41-44 | for well-formed times, string `<` is minute order, in both directions |
| Clock.TimeOrderEq | utils.ts:41-44 | for well-formed times, string `<=` is minute `<=`, in both directions |
| Constants.CreateSlot | constants.ts:25-31 | a created slot carries the given day, times and subject, with id "day-start" |
| Constants.ScheduleForClass | constants.ts:99-101 | class "11-CH" gets its own template; "12-CH", an empty or missing id and every id outside the table fall back to 12-CH (ids naming inherited object members are under Left out) |
| Constants.FollowsTransitive | constants.ts:34-86 | "comes later in the week: on a later weekday, or on the same day once the other has ended" is transitive |
| Constants.LinkedOrdered | constants.ts:34-86 | a list in which each slot follows the one before it is ordered pairwise |
| Constants.OrderedDisjoint | constants.ts:34-86 | two different slots of an ordered list are well formed and do not overlap in time on a shared day |
| Constants.DayLabelPrefix | types.ts:4-12 | the day names are at least three letters long and their first three letters tell them apart |
| Constants.SlotIdInjective | constants.ts:26 | a slot id "day-start" determines its day and start time, in both directions |
| Constants.OrderedDistinctIds | constants.ts:26 | the slots of an ordered list have pairwise different ids |
| Constants.Schedule12Linked | constants.ts:34-76 | each lesson of the 12-CH template starts no earlier than the one before it ends |
| Constants.Schedule11Linked | constants.ts:79-86 | the same holds for the 11-CH template |
| Constants.TemplatesValid | constants.ts:93-101 | the template of every class is valid: each slot has id "day-start" and a start before its end, every slot comes after the ones listed before it, and each names a known subject on a school day |
| Constants.ValidTemplateFacts | constants.ts:34-86 | in a valid template every slot is well formed, ids differ, and no two slots overlap |
| Utils.ClockTime | utils.ts:39 | the displayed clock time is well formed and names the current minute |
| Utils.DayName | utils.ts:6-18 | the weekday name of a weekday index is the day whose index it is |
| Utils.DayNameBijective | utils.ts:6-18 | the index-to-name map is a bijection: each name comes from exactly one index |
| Utils.WeekdayStep | utils.ts:91-93 | the next day is the next weekday, and a week later is the same weekday |
| Utils.DaySlots | utils.ts:25 | the day's slots are exactly the template slots on that weekday |
| Utils.ApplyOverride | utils.ts:28-32 | an override changes at most the subject: id, day and times stay |
| Utils.ApplyOverrideSpec | utils.ts:28-32 | with no override for this date and slot the slot is unchanged; otherwise the first matching override gives the subject |
| Utils.ResolveAll | utils.ts:27-32 | resolving keeps the number of slots and each slot's frame |
| Utils.ResolveAllAt | utils.ts:27-32 | the i-th resolved slot is the i-th slot with its override applied |
| Utils.EffectiveScheduleSpec | utils.ts:21-34 | the effective schedule is sorted by start time, has as many slots as the template has on that weekday, and its members are exactly those slots with their overrides applied |
| Utils.NoOverridesKeepsTemplate | utils.ts:21-34 | without an override for the date, the effective schedule is a permutation of the day's template slots |
| Utils.OtherDatesIgnored | utils.ts:28 | overrides saved for other dates have no effect on a day's schedule |
| Utils.ValidTemplateSeparated | constants.ts:34-86 | a valid template has no two overlapping slots on the same day |
| Utils.SameFrameSeparated | utils.ts:30 | changing only the subjects keeps two slots apart |
| Utils.ResolveAllSeparated | utils.ts:27-32 | applying overrides keeps a separated list separated |
| Utils.ResolvePairSeparated | utils.ts:27-32 | two different resolved slots of a separated list are apart |
| Utils.EffectiveSeparated | utils.ts:21-34 | the effective schedule of a separated template is separated |
| Utils.RunningMinutes | utils.ts:41-44 | a slot is running exactly when its start minute is at most the current minute and its end minute is later |
| Utils.CurrentTimeSlotSpec | utils.ts:36-45 | the current slot is one of today's effective slots and is running; there is none exactly when no slot is running |
| Utils.NotCurrentAtEnd | utils.ts:43 | a slot is no longer current at its end time |
| Utils.RunningUnique | utils.ts:41-44 | in a separated list of one day, a running slot is the one `find` returns |
| Utils.CurrentUnique | utils.ts:36-45 | for a separated template, any running effective slot is the current slot |
| Utils.FirstUpcomingEarliest | utils.ts:52 | in a sorted list the first upcoming slot starts no later than any other upcoming slot |
| Utils.NextTimeSlotSpec | utils.ts:47-53 | the next slot is upcoming today and starts first among the upcoming slots; there is none exactly when none is upcoming |
| Utils.RunningBeforeUpcoming | utils.ts:41-52 | on a separated day a running slot ends no later than an upcoming one starts |
| Utils.CurrentBeforeNext | utils.ts:36-53 | when both exist, the current slot ends no later than the next slot starts |
| Utils.ReadHoursMinutes | utils.ts:69 | the text "Hh Mm" reads back as 60·H + M minutes |
| Utils.ReadMinutes | utils.ts:70 | the text "Mm" reads back as M minutes |
| Utils.FindFirstAt | utils.ts:41-44 | `find` returns the first position that passes |
| Utils.DurationTextRoundTrip | utils.ts:65-70 | the hours-and-minutes text of a duration reads back as that number of minutes |
| Utils.TimeLeftSpec | utils.ts:55-71 | after the end time the text is "0m"; before it the text reads back as the whole minutes left |
| Utils.CalculateStreak | utils.ts:84-115 | the loop computes the streak function: 0 for no dates or a stale newest date, otherwise the run of consecutive days down from the newest date |
| Utils.StreakZero | utils.ts:85-98 | no dates, or neither today nor yesterday logged (only older or only future dates), give a streak of 0 |
| Utils.RunLengthSpec | utils.ts:100-113 | in a strictly descending list the run counts the consecutive days from the head, and the next entry leaves a gap |
| Utils.StreakCharacterization | utils.ts:84-115 | a positive streak n means the newest date is today or yesterday, the n days down from it are all logged, and the day before them is not |
| Utils.HeadIsMax | utils.ts:87 | the head of the sorted, reversed dates is the newest date |
| Utils.RunMembers | utils.ts:103-113 | every day of the counted run is in the list |
| Utils.GapAfterRun | utils.ts:103-113 | the day just before the run is not in the list |
| Utils.StreakIgnoresDuplicates | utils.ts:87 | logging a date that is already there does not change the streak |
| Utils.DistinctSameMembers | utils.ts:87 | the de-duplicated descending list depends only on which dates are present |
| Utils.StrictlyDescendingUnique | utils.ts:87 | two strictly descending lists with the same members are equal |
| Utils.StreakExamples | utils.ts:84-115 | examples: three consecutive days ending today give 3, a stale list gives 0, duplicates with a gap give 1 |
| Lists.KeepSpec | utils.ts:25 | `filter` keeps exactly the passing elements, with their multiplicities and in their order |
| Lists.WithoutId | pages/Subjects.tsx:127-132 | removal by id keeps every element with another id exactly as often as before, and in order, and none with the id; it shrinks only when the id is present |
| Lists.WithoutIdIdempotent | pages/Subjects.tsx:127-132 | removing the same id twice is removing it once |
| Lists.KeepSorted | pages/Tools.tsx:376 | filtering a list sorted by a key leaves it sorted |
| Lists.FlatMapSpec | App.tsx:52-86 | every raised item comes from one of the slots; with at most one item per slot there are at most as many items as slots |
| Lists.FlatMapUnique | App.tsx:52-86 | when each slot's items carry its own key and slots have distinct keys, the items have distinct keys |
| Lists.FlatMapContains | App.tsx:52-86 | everything a slot raises is among the raised items |
| Lists.FindFirst | utils.ts:41-44 | the index `find` stops at passes and every earlier element fails; none means none passes |
| Lists.Find | utils.ts:28 | `find` returns a passing element, the first one, and returns nothing exactly when no element passes |
| Lists.FindKeep | pages/Timetable.tsx:82 | filtering out elements the predicate rejects does not change what `find` returns |
| Lists.InsertBySpec | utils.ts:33 | one insertion step of the stable sort keeps the list sorted and adds exactly the element |
| Lists.SortBySpec | utils.ts:33 | `sort` by `localeCompare` yields a sorted permutation of its input |
| Lists.DistinctDescendingSpec | utils.ts:87 | `[...new Set(xs)].sort().reverse()` is strictly descending and has exactly the members of xs |
| Lists.LinkedPairwise | constants.ts:34-86 | a list linked by a transitive relation is related pairwise |
| App.GetSavedData | App.tsx:29-36 | missing or unreadable storage reads as no reminders and no class; a saved document keeps its class and reminders |
| App.DeliveryFor | App.tsx:72-83 | a granted permission shows a native notification, the default state asks for permission, and denied or unsupported falls back to an alert |
| App.TriggerMinute | App.tsx:58-64 | the trigger minute is minutesBefore before the start, modulo a day |
| App.Raised | App.tsx:53-85 | a slot raises one notification exactly when its active reminder is due now, carrying that slot's id |
| App.TodaySlotsExaminable | App.tsx:47-50 | today's slots come from the class template and can all be examined |
| App.CheckReminders | App.tsx:38-87 | the check returns the notifications of the reminder specification |
| App.RaiseAll | App.tsx:52-86 | the loop over today's slots raises, in slot order, each slot's notifications |
| App.NothingWithoutReminders | App.tsx:40 | no stored reminders means no notification |
| App.DueMinute | App.tsx:58-66 | a reminder is due exactly when the current minute plus minutesBefore is the start minute, modulo a day |
| App.ModEqual | App.tsx:63-66 | distinct minutes of a day cannot both be the trigger minute |
| App.TriggerExamples | App.tsx:58-66 | a 10-minute reminder for 19:00 fires at 18:50 and not a minute either side; one for 00:05 fires at 23:55 |
| App.MessageExample | App.tsx:69 | the message text for Literatura 10 minutes ahead |
| App.RaisedFacts | App.tsx:52-86 | at most one notification per slot, their slot ids pairwise distinct, each from a due slot |
| App.TodaySlotsFacts | App.tsx:47-50 | today's slots are template slots on today's weekday, examinable, with distinct ids |
| App.CheckFacts | App.tsx:38-87 | one check raises at most one notification per slot of today, each for one of today's due slots |
| App.DueSlotRaises | App.tsx:38-87 | every due slot of today raises its notification |
| App.DueRaises | App.tsx:52-86 | every due, examinable slot in the list raises its notification |
| Timetable.SelectableDays | pages/Timetable.tsx:29 | the day picker offers exactly the five weekdays, Monday to Friday |
| Timetable.RawScheduleSpec | pages/Timetable.tsx:37-38 | the raw day view is a sorted permutation of that day's template slots |
| Timetable.Display | pages/Timetable.tsx:40-48 | a shown slot keeps its frame and carries its active reminder; it is marked overridden exactly when some override names the slot, and the first one gives the subject |
| Timetable.DisplayedSchedule | pages/Timetable.tsx:40-48 | the displayed list shows each raw slot, in order |
| Timetable.DisplayIgnoresDate | pages/Timetable.tsx:41 | an override saved yesterday still shows on the page but no longer changes the effective schedule |
| Timetable.DisplayAgreesToday | pages/Timetable.tsx:40-48 | when every override is for today, the page shows the effective schedule's subjects |
| Timetable.OthersLackSlot | pages/Timetable.tsx:68 | after a reset no override names that slot |
| Timetable.WithOverrideSpec | pages/Timetable.tsx:50-63 | after an override the slot has exactly one override, the new one, placed last; other slots' overrides keep their order |
| Timetable.OverrideDiscardsEarlier | pages/Timetable.tsx:57 | an earlier override of the same slot for another date is gone |
| Timetable.WithoutOverridesSpec | pages/Timetable.tsx:65-70 | reset removes exactly that slot's overrides and keeps every other one with its multiplicity, in order |
| Timetable.ResetIdempotent | pages/Timetable.tsx:50-70 | resetting twice is resetting once, and reset undoes an override |
| Timetable.OthersLackReminder | pages/Timetable.tsx:91-98 | after removal no reminder names that slot |
| Timetable.WithReminderSpec | pages/Timetable.tsx:72-89 | saving leaves exactly one reminder for the slot, the new active one, placed last; other reminders keep their order |
| Timetable.SavedReminderFound | pages/Timetable.tsx:42 | after saving, the page finds the saved reminder; after removal it finds none |
| Timetable.WithoutReminderSpec | pages/Timetable.tsx:91-98 | removal is idempotent, undoes a save, and keeps exactly the other slots' reminders |
| Timetable.DefaultTimetableData | pages/Timetable.tsx:12 | the fallback document selects 12-CH and has no overrides or reminders |
| Timetable.TimetableView.constructor | pages/Timetable.tsx:10-13 | the page starts on Monday with the stored or fallback document and no dialog open |
| Timetable.TimetableView.SelectDay | pages/Timetable.tsx:117 | only the selected day changes |
| Timetable.TimetableView.OpenReminderDialog | pages/Timetable.tsx:167 | only the slot of the reminder dialog changes |
| Timetable.TimetableView.HandleOverride | pages/Timetable.tsx:50-63 | the overrides become the override specification's result and the edit dialog closes |
| Timetable.TimetableView.HandleReset | pages/Timetable.tsx:65-70 | only the overrides change, by the reset specification |
| Timetable.TimetableView.SaveReminder | pages/Timetable.tsx:72-89 | without a chosen slot nothing is saved; otherwise the reminders follow the save specification; the dialog closes |
| Timetable.TimetableView.RemoveReminder | pages/Timetable.tsx:91-98 | without a chosen slot nothing changes; otherwise that slot's reminders are removed; the dialog closes |
| Dashboard.Workload | pages/Dashboard.tsx:57-60 | up to 5 pending tasks is light (green), 6 to 10 is moderate (yellow), more is heavy (red), each in both directions |
| Dashboard.DisplayName | pages/Dashboard.tsx:28 | an absent or empty name shows "Estudante"; any other name shows as is |
| Dashboard.IsPastMinutes | pages/Dashboard.tsx:351 | a slot is past exactly when its end minute is before the current minute |
| Dashboard.PastNotRunning | pages/Dashboard.tsx:351-352 | a past slot is not running |
| Dashboard.Timeline | pages/Dashboard.tsx:349-352 | the corrected timeline: today's effective schedule in order, each entry marked past as the source does and current by slot id rather than by the `===` test of line 352, whose as-written comparison is Dashboard.IsCurrentAsWritten over Dashboard.ScheduleObjects |
| Dashboard.HighlightById | pages/Dashboard.tsx:352 | comparing by id marks exactly the running entry of a separated day |
| Dashboard.TimelineMarksRunning | pages/Dashboard.tsx:44-45 | with the comparison by slot id, the timeline marks exactly the running entry as current |
| Dashboard.ResolveObject | utils.ts:28-32 | an override yields a fresh copy, and no override yields the template object itself |
| Dashboard.ObjectsOf | utils.ts:27-32 | one resolution turns each slot into its object |
| Dashboard.ObjectOrigins | utils.ts:21-34 | every object of one resolution is a template object or a copy that resolution made |
| Dashboard.OverriddenCurrentNeverMarked | pages/Dashboard.tsx:352 | with `===`, a current slot that an override replaced matches no entry of the timeline |
| Dashboard.CurrentMarkerCounterexample | pages/Dashboard.tsx:352 | the replaced 07:00 Monday lesson at 07:30 is current but not highlighted as written, and it is highlighted when compared by id |
| Dashboard.Import | pages/Dashboard.tsx:104-120 | a backup is restored exactly when it parses, is truthy, has a tasks array and is confirmed; parse errors and invalid files are told apart; otherwise the data stays |
| Dashboard.DefaultDashboardData | pages/Dashboard.tsx:13 | the fallback document selects 12-CH, names the user "Estudante" and has no tasks |
| Dashboard.DashboardView.constructor | pages/Dashboard.tsx:26-28 | the page starts with settings closed and the shown name in the edit field |
| Dashboard.DashboardView.OpenSettings | pages/Dashboard.tsx:36-38 | opening the settings copies the shown name into the edit field |
| Dashboard.DashboardView.EditName | pages/Dashboard.tsx:181 | typing changes only the edit field |
| Dashboard.DashboardView.HandleClassChange | pages/Dashboard.tsx:76-78 | only the selected class changes |
| Dashboard.DashboardView.SaveName | pages/Dashboard.tsx:80-83 | only the user name changes, to the edited text; when that changes the stored name with the settings open, the effect at pages/Dashboard.tsx:36-38 shows the display name again, so an empty name reads 'Estudante' |
| Dashboard.DashboardView.HandleImportData | pages/Dashboard.tsx:99-122 | with no file nothing happens; otherwise the import outcome decides the data, and a restore closes the settings |
| Attendance.RecordFor | pages/Attendance.tsx:27 | a stored record is used; otherwise the default record with limit 10 |
| Attendance.UpdatedAttendanceSpec | pages/Attendance.tsx:26-37 | only the subject's absences change, to max(0, absent + change); every other entry and that record's other fields stay |
| Attendance.AbsenceRoundTrip | pages/Attendance.tsx:26-37 | one more absence and one fewer restores the record; one fewer and one more restores it unless it was at zero |
| Attendance.IsCriticalSpec | pages/Attendance.tsx:57 | critical means at least four fifths of the limit used |
| Attendance.RemainingSpec | pages/Attendance.tsx:63 | remaining absences are never negative, are zero exactly at the limit, add up to the limit below it, and zero remaining is critical |
| Attendance.DefaultRecordFigures | pages/Attendance.tsx:52 | an unrecorded subject has ten absences left and is not critical |
| Attendance.BuildChart | pages/Attendance.tsx:45-68 | the loop yields one chart entry per tracked subject and the summed absences and limits |
| Attendance.SubjectValues | pages/Attendance.tsx:49 | `Object.values(SUBJECTS)` lists each subject in declaration order |
| Attendance.TrackedSubjects | pages/Attendance.tsx:49-50 | the chart covers every subject except the free period |
| Attendance.SumsWithoutRecords | pages/Attendance.tsx:52-55 | with no records, nobody is absent and each subject adds the default limit |
| Attendance.SumsBounded | pages/Attendance.tsx:54-55 | with absences within every limit, the total absences stay within the total limit |
| Attendance.RoundPercentSpec | pages/Attendance.tsx:72 | `Math.round` of a percentage is the nearest integer, halves up, and lies in 0..100 for a fraction in 0..1 |
| Attendance.GlobalRate | pages/Attendance.tsx:71-73 | the global rate is 100 with no limits or no absences, and otherwise lies in 0..100 |
| Attendance.FreshRateIsFull | pages/Attendance.tsx:71-73 | with no attendance recorded the rate is 100 |
| Attendance.PendingAgrees | pages/Attendance.tsx:40-42 | total minus completed equals the dashboard's count of pending tasks |
| Attendance.CompletionRate | pages/Attendance.tsx:43 | the completion rate is 0 without tasks, lies in 0..100, and is 100 when all are done |
| Attendance.Badges | pages/Attendance.tsx:82-86 | a badge is unlocked exactly when the completed count reaches its threshold (1, 10, 50) |
| Attendance.BadgesMonotone | pages/Attendance.tsx:82-86 | completing more tasks never locks a badge |
| Attendance.DefaultAttendanceData | pages/Attendance.tsx:12 | the fallback document has no attendance and no tasks |
| Attendance.AttendanceView.constructor | pages/Attendance.tsx:23-24 | the page starts with the stored or fallback document and no dialog |
| Attendance.AttendanceView.UpdateAttendance | pages/Attendance.tsx:26-37 | only the attendance changes, by the update specification |
| Attendance.AttendanceView.Edit | pages/Attendance.tsx:147 | only the subject in the editing dialog changes |
| Attendance.AttendanceView.Summary | pages/Attendance.tsx:45-73 | the page shows one entry per tracked subject and the global rate of their sums |
| Attendance.AttendanceView.EditingRecord | pages/Attendance.tsx:88-89 | a record is shown exactly when a subject is being edited, and it is that subject's stored record or the default |
| Subjects.LoggedDates | pages/Subjects.tsx:41-49 | after logging, today is among the dates, nothing else is added, and an existing today changes nothing |
| Subjects.LoggedDatesIdempotent | pages/Subjects.tsx:43 | logging twice on a day is logging once |
| Subjects.LoggingStartsStreak | pages/Subjects.tsx:41-49 | once today is logged, with no date in the future, the streak is at least one day |
| Subjects.NoteContent | pages/Subjects.tsx:55-56 | the note text is the current "HH:mm", then " - ", then what was written |
| Subjects.AddNote | pages/Subjects.tsx:51-68 | with no subject or text that trim empties (every ECMAScript white space and line terminator) nothing changes; otherwise the new note goes first, carrying the subject and the prefixed text, and today is logged |
| Subjects.AddNoteLists | pages/Subjects.tsx:64 | the new note heads its subject's notes, and every other subject's notes are unchanged |
| Subjects.AddTask | pages/Subjects.tsx:70-87 | with no subject, a title that trim empties, or a due date that is not a valid date nothing changes; otherwise a new uncompleted homework task goes first, and today is logged |
| Subjects.AddTaskPending | pages/Subjects.tsx:76-81 | an added task is one more pending task on the dashboard; a refused one leaves the count |
| Subjects.Toggled | pages/Subjects.tsx:122 | only the task with the id flips its done flag, and nothing else about it changes |
| Subjects.ToggleTasks | pages/Subjects.tsx:122 | the list keeps its length, with each task toggled in place |
| Subjects.ToggleInvolution | pages/Subjects.tsx:119-125 | toggling twice restores the list |
| Subjects.ToggleMissing | pages/Subjects.tsx:122 | an id no task carries changes nothing |
| Subjects.TogglePendingCount | pages/Subjects.tsx:119-125 | the pending count gains the completed tasks toggled and loses the pending ones |
| Subjects.ToggleTask | pages/Subjects.tsx:119-125 | toggling changes the tasks and logs today, and nothing else |
| Subjects.AddGrade | pages/Subjects.tsx:89-110 | the grade is ignored (no subject, a name that trim empties, an empty value), refused (outside 0..20) or added, exactly as the guards say; an added grade goes first and logs today; otherwise nothing changes |
| Subjects.AddGradeKeepsValid | pages/Subjects.tsx:93-96 | every stored mark stays in 0..20 across additions |
| Subjects.DeleteGradeKeepsValid | pages/Subjects.tsx:112-117 | deleting a grade keeps every remaining mark in 0..20 |
| Subjects.GradeSumBounds | pages/Subjects.tsx:156 | the sum of valid marks lies between 0 and 20 times their number |
| Subjects.AverageBounds | pages/Subjects.tsx:155-157 | there is an average exactly when there are grades, and the average of valid marks is a valid mark |
| Subjects.SubjectAverageBounds | pages/Subjects.tsx:151-157 | a subject's average of valid marks is a valid mark |
| Subjects.UpdatedDetails | pages/Subjects.tsx:136-145 | the subject's entry gains the key with the value, and its other keys and the other subjects stay |
| Subjects.UpdateSubjectDetail | pages/Subjects.tsx:134-146 | without a subject nothing changes; otherwise only the custom details change, by the update |
| Subjects.TogglePrioritySpec | pages/Subjects.tsx:246 | the priority switch flips that subject's flag, leaves other subjects alone, and twice restores the flag |
| Subjects.DefaultSubjectsData | pages/Subjects.tsx:13 | the fallback document selects 12-CH and holds no tasks, notes or activity |
| Subjects.SubjectsView.constructor | pages/Subjects.tsx:24-36 | no subject selected, details tab, empty forms, due date today and medium priority |
| Subjects.SubjectsView.SelectSubject | pages/Subjects.tsx:497 | only the selected subject changes; the tab and every form field stay |
| Subjects.SubjectsView.SelectTab | pages/Subjects.tsx:186 | only the tab changes; the subject, the data and every form field stay |
| Subjects.SubjectsView.HandleAddNote | pages/Subjects.tsx:51-68 | the data follows the note specification; on success only the note text clears and the notes tab opens, otherwise no field changes |
| Subjects.SubjectsView.HandleAddTask | pages/Subjects.tsx:70-87 | the data follows the task specification; on success the task form resets and the tasks tab opens; a blank title or an invalid due date changes no field |
| Subjects.SubjectsView.HandleAddGrade | pages/Subjects.tsx:89-110 | the outcome and data follow the grade specification; only the grade form clears, and only when a grade is stored |
| Subjects.SubjectsView.HandleDeleteGrade | pages/Subjects.tsx:112-117 | only the grades change: the grade with the id is removed; subject, tab and forms stay |
| Subjects.SubjectsView.HandleToggleTask | pages/Subjects.tsx:119-125 | the data follows the toggle specification; subject, tab and forms stay |
| Subjects.SubjectsView.HandleDeleteTask | pages/Subjects.tsx:127-132 | only the tasks change: the task with the id is removed; subject, tab and forms stay |
| Subjects.SubjectsView.HandleUpdateSubjectDetail | pages/Subjects.tsx:134-146 | the data follows the detail update; subject, tab and forms stay |
| Subjects.SubjectsView.SubjectNotes | pages/Subjects.tsx:149 | exactly the selected subject's notes are shown, each as often as stored, in stored order |
| Tools.LoadTools | pages/Tools.tsx:11-24 | nothing saved gives empty tool lists and an empty scratchpad; a saved field wins over its default |
| Tools.LoadSavedRoundTrip | pages/Tools.tsx:11-24 | loading what was saved gives the same data back |
| Tools.AddCard | pages/Tools.tsx:109-120 | an empty front or back adds nothing; otherwise the new general card goes first |
| Tools.Flip | pages/Tools.tsx:139 | a click turns that card, or turns it back; at most one card is turned |
| Tools.FlipTwice | pages/Tools.tsx:139 | a second click hides the card again |
| Tools.AddQuestion | pages/Tools.tsx:280-285 | text that trim empties (every ECMAScript white space and line terminator) adds nothing; otherwise a new unanswered general question goes first |
| Tools.Toggled | pages/Tools.tsx:290 | only the question with the id flips its answered flag |
| Tools.ToggleAnswered | pages/Tools.tsx:287-292 | the list keeps its length, with each question toggled in place |
| Tools.ToggleAnsweredInvolution | pages/Tools.tsx:287-292 | toggling twice restores the list |
| Tools.ToggleAnsweredOthers | pages/Tools.tsx:290 | other questions are untouched and the matching one flips |
| Tools.AddEvent | pages/Tools.tsx:348-354 | a missing title or date adds nothing; otherwise the calendar is the old events plus the new one, sorted by date |
| Tools.EventsStaySorted | pages/Tools.tsx:351 | the calendar stays in date order through additions and removals |
| Tools.AddEventContents | pages/Tools.tsx:351 | the new event and every earlier one are in the calendar |
| Tools.AddContact | pages/Tools.tsx:392-399 | a missing name or phone adds nothing; otherwise the new contact goes first, keeping the given role, or with role "Estudante" when the role is empty |
| Tools.ToolsView.constructor | pages/Tools.tsx:11-24 | the page starts with the loaded data, no tool open and empty forms |
| Tools.ToolsView.OpenTool | pages/Tools.tsx:47-82 | the open tool changes and the data stays; the tool components remount, so every form is empty and no card is turned |
| Tools.ToolsView.HandleAddCard | pages/Tools.tsx:109-120 | the cards follow the add specification; on success only front and back clear, otherwise no field changes |
| Tools.ToolsView.HandleDeleteCard | pages/Tools.tsx:122-124 | only the card with the id is removed; the tool and every form stay |
| Tools.ToolsView.HandleFlip | pages/Tools.tsx:139 | only the turned card changes, by the flip specification |
| Tools.ToolsView.HandleSaveCanvas | pages/Tools.tsx:237-242 | the scratchpad becomes the given image; the tool and every form stay |
| Tools.ToolsView.HandleClearCanvas | pages/Tools.tsx:244-251 | the scratchpad becomes empty; the tool and every form stay |
| Tools.ToolsView.HandleAddQuestion | pages/Tools.tsx:280-285 | the questions follow the add specification; on success only the text clears, otherwise no field changes |
| Tools.ToolsView.HandleToggleAnswered | pages/Tools.tsx:287-292 | the questions follow the toggle specification; the tool and every form stay |
| Tools.ToolsView.HandleDeleteQuestion | pages/Tools.tsx:312 | only the question with the id is removed; the tool and every form stay |
| Tools.ToolsView.HandleAddEvent | pages/Tools.tsx:348-354 | the calendar follows the add specification; on success only the event form clears, otherwise no field changes |
| Tools.ToolsView.HandleDeleteEvent | pages/Tools.tsx:376 | only the event with the id is removed; the tool and every form stay |
| Tools.ToolsView.HandleAddContact | pages/Tools.tsx:392-399 | the contacts follow the add specification; on success only the contact form clears, otherwise no field changes |
| Tools.ToolsView.HandleDeleteContact | pages/Tools.tsx:427 | only the contact with the id is removed; the tool and every form stay |
| Pomodoro.Duration | components/PomodoroTimer.tsx:30-39 | a focus period is 25 minutes and a break 5, in seconds |
| Pomodoro.TickState | components/PomodoroTimer.tsx:10-26 | a running timer with time left loses one second; a timer at zero stops; in every other state nothing changes |
| Pomodoro.ToggleState | components/PomodoroTimer.tsx:28 | play/pause flips only the running flag |
| Pomodoro.ResetState | components/PomodoroTimer.tsx:30-33 | reset stops the timer with the full period of its mode |
| Pomodoro.SwitchState | components/PomodoroTimer.tsx:35-39 | switching sets the mode, stops, and starts the full period of the new mode |
| Pomodoro.InitialValid | components/PomodoroTimer.tsx:6-8 | the timer starts stopped, in focus mode, with the full period |
| Pomodoro.ValidPreserved | components/PomodoroTimer.tsx:10-39 | every handler keeps the time left between zero and the period |
| Pomodoro.ToggleTwice | components/PomodoroTimer.tsx:28 | pressing play/pause twice restores the state |
| Pomodoro.ResetForgets | components/PomodoroTimer.tsx:30-33 | after a reset the state depends only on the mode |
| Pomodoro.CountdownEnds | components/PomodoroTimer.tsx:10-26 | a running timer reaches zero after exactly its time left in ticks, and the next tick stops it |
| Pomodoro.StoppedStays | components/PomodoroTimer.tsx:12-18 | a stopped timer does not move, however many ticks pass |
| Pomodoro.Progress | components/PomodoroTimer.tsx:47-49 | progress lies in 0..100; it is 0 exactly with the full period left and 100 exactly at zero |
| Pomodoro.FormatCountdown | components/PomodoroTimer.tsx:41-45 | the display ends in ":SS" with the leftover seconds and is five characters exactly below 100 minutes |
| Pomodoro.CountdownRoundTrip | components/PomodoroTimer.tsx:41-45 | below 100 minutes the display reads back as the seconds it shows |
| Pomodoro.DisplayReadable | components/PomodoroTimer.tsx:41-45 | every time a valid timer shows reads back as its time left |
| Pomodoro.PomodoroTimer.constructor | components/PomodoroTimer.tsx:6-8 | the component starts in the initial state |
| Pomodoro.PomodoroTimer.Tick | components/PomodoroTimer.tsx:10-26 | one second of the interval effect applies the tick step |
| Pomodoro.PomodoroTimer.ToggleTimer | components/PomodoroTimer.tsx:28 | the button applies the toggle step |
| Pomodoro.PomodoroTimer.ResetTimer | components/PomodoroTimer.tsx:30-33 | the button applies the reset step |
| Pomodoro.PomodoroTimer.SwitchMode | components/PomodoroTimer.tsx:35-39 | the mode buttons apply the switch step |
| Pomodoro.PomodoroTimer.Display | components/PomodoroTimer.tsx:76 | the shown text is the formatted time left and, for a valid timer, reads back as it |

## Left out

- JSON parsing is left out. Stored documents are modelled as already parsed values; `Tools` models a saved document's missing fields as `None`. A parse failure is modelled only where the source catches it: App.tsx's `getSavedData` and the dashboard import.
- Type confusion in stored data is left out: fields of the wrong type, `undefined` where a list is read without a fallback, and `NaN` grades. They are JavaScript runtime behaviours outside a typed model.
- Local storage, `useEffect` persistence and the service worker are left out. They are I/O.
- React updates are modelled as one atomic state change per handler. `handleOverride`, `saveReminder` and `logActivity` read the render-time `data` while `setData` spreads `prev`. The model uses one value for both, so interleavings of several pending updates are not captured.
- `calculateSchoolYearProgress`, the dashboard's progress bar for the current slot and `toFixed` display of the grade average are left out: they are floating-point display values. The grade average (`Subjects.Average`) and Pomodoro progress are exact reals.
- Attendance's `absent >= maxAbsences * 0.8` and `Math.round` are exact arithmetic, not IEEE doubles.
- Attendance's chart sort by the ratio `absent / maxAbsences` is left out. It is a floating-point ordering used only to draw the chart; the model lists entries in subject order.
- `localeCompare` is modelled as code-point order. The strings compared (zero-padded times, ISO dates) are ASCII digits and punctuation, where the two agree; locale collation of other text is not modelled.
- Time zones, daylight saving and sub-second time are left out. A day has 86400 seconds and `now` is a day number and a second of the day.
- Dates are day numbers, not "yyyy-MM-dd" strings. Event dates stay strings because the calendar sorts the entered text.
- Dashboard's `now` is a one-second clock while `getCurrentTimeSlot` reads its own `new Date()`. The model gives both the same `Moment`.
- Notifications, `alert`, `confirm`, `FileReader` and the permission request are outcomes or parameters. The asynchronous permission prompt is a `RequestPermission` delivery.
- The data export (`Blob`, download link), the canvas drawing strokes, the charts, the formulas list, Portuguese date text and all rendering are left out: they are presentation or browser I/O. Only saving and clearing the scratchpad image are modelled.
- `BottomNav`, `Card` and the remaining presentational JSX are left out.
- `SUBJECTS[id]` lookups of ids not in the table are not modelled as failures. The reminder check requires examinable slots, and template slots always are.
- Pomodoro.PomodoroTimer.Tick: the `setInterval` effect is modelled as one tick per elapsed second. Timer drift and the interval's clearing are not modelled.
- Pomodoro.FormatCountdown: from 100 minutes up the display is longer than five characters. This is proved, but only times under 100 minutes are shown to read back, and they are the only times a valid timer holds.
- Utils.TimeLeft: the model returns "NaNm" for every end time that is not "HH:mm"; the date parsing the source relies on also accepts some other forms, such as "07:30:15" or "24:00", which it reads as times.
- Subjects.SubjectsView.HandleAddTask: `new Date(taskDueDate).toISOString()` is a parameter (`dueDate`), not computed from the form field; None stands for the RangeError it throws when the field names no valid date, which aborts the handler. Only the cleared field is tied to None.
- ScheduleForClass: ids naming members that every object inherits (such as "constructor", "toString" or "__proto__") are treated as ids outside the table and fall back to 12-CH. In the source, the lookup returns that inherited member, which is not a list of slots, and the page fails on it. Such an id can only come from an imported backup.

## Findings

| source | as written | input that shows it | evidently intended | confidence | as-written member | corrected member |
|---|---|---|---|---|---|---|
| pages/Dashboard.tsx:352 | `isCurrent` compares slot objects with `===`; the timeline and `getCurrentTimeSlot` each call `getEffectiveDailySchedule`, which returns a fresh spread copy (utils.ts:30) for an overridden slot, so an overridden current slot is never highlighted | class 12-CH, Monday 5 January 1970 at 07:30, the 07:00-07:45 EFI lesson overridden to MAT for that day | mark the timeline entry whose id is the current slot's id | not executed | Dashboard.CurrentMarkerCounterexample | Dashboard.TimelineMarksRunning |
