// The dashboard page: the workload indicator, today's timeline with its past
// and current markers, the name and class settings, and restoring a backup.
// The timeline's current marker is modelled twice: as written, comparing
// object identities of two separately resolved schedules, and as intended,
// comparing slot ids.

module Dashboard {
  import opened Types
  import opened Text
  import opened Clock
  import opened Lists
  import opened Constants
  import opened Utils

  // ---------------------------------------------------------------- workload

  predicate Pending(t: Task)
  {
    !t.isCompleted
  }

  function PendingTest(): Task -> bool
  {
    t => Pending(t)
  }

  /** `data.tasks.filter(t => !t.isCompleted).length`. */
  function PendingCount(tasks: seq<Task>): nat
  {
    |Keep(tasks, PendingTest())|
  }

  /** The workload colour and label: light up to five pending tasks, moderate up to ten, heavy above. */
  method Workload(pendingTasks: nat) returns (color: string, text: string)
    ensures text == "Leve" <==> pendingTasks <= 5
    ensures text == "Moderada" <==> 5 < pendingTasks <= 10
    ensures text == "Pesada" <==> 10 < pendingTasks
    ensures text == "Leve" ==> color == "bg-green-500"
    ensures text == "Moderada" ==> color == "bg-yellow-500"
    ensures text == "Pesada" ==> color == "bg-red-500"
  {
    color := "bg-green-500";
    text := "Leve";
    if pendingTasks > 5 {
      color := "bg-yellow-500";
      text := "Moderada";
    }
    if pendingTasks > 10 {
      color := "bg-red-500";
      text := "Pesada";
    }
  }

  // ---------------------------------------------------------------- greeting

  /** `data.userName || 'Estudante'`: an absent or empty name shows the default. */
  function DisplayName(userName: Option<string>): (s: string)
    ensures userName.None? || userName == Some("") ==> s == "Estudante"
    ensures userName.Some? && userName.value != "" ==> s == userName.value
  {
    if userName.Some? && userName.value != "" then userName.value else "Estudante"
  }

  // ---------------------------------------------------------------- timeline

  /** `slot.endTime < format(now, 'HH:mm')`. */
  predicate IsPast(slot: TimeSlot, now: Moment)
  {
    LexLess(slot.endTime, ClockTime(now))
  }

  /** For a well-formed end time, a slot is past exactly when its end minute is before the current minute. */
  lemma IsPastMinutes(slot: TimeSlot, now: Moment)
    requires WellFormedTime(slot.endTime)
    ensures IsPast(slot, now) <==> MinuteOfDay(slot.endTime) < now.second / 60
  {
    TimeOrder(slot.endTime, ClockTime(now));
  }

  /** A past slot is not running, and a running slot is not past. */
  lemma PastNotRunning(slot: TimeSlot, now: Moment)
    ensures IsPast(slot, now) ==> !Running(slot, ClockTime(now))
  {
    if IsPast(slot, now) {
      LexAsymmetric(slot.endTime, ClockTime(now));
    }
  }

  /** The current marker as intended: the entry with the current slot's id. */
  predicate IsCurrent(slot: TimeSlot, current: Option<TimeSlot>)
  {
    current.Some? && slot.id == current.value.id
  }

  datatype TimelineEntry = TimelineEntry(slot: TimeSlot, isPast: bool, isCurrent: bool)

  /** The timeline: today's effective schedule, each entry marked past or current. */
  function Timeline(base: seq<TimeSlot>, overrides: seq<ScheduleOverride>, now: Moment): (r: seq<TimelineEntry>)
    ensures |r| == |EffectiveDailySchedule(base, now.date, overrides)|
    ensures forall i :: 0 <= i < |r| ==> r[i].slot == EffectiveDailySchedule(base, now.date, overrides)[i]
    ensures forall i :: 0 <= i < |r| ==> r[i].isPast == IsPast(r[i].slot, now)
    ensures forall i :: 0 <= i < |r| ==> r[i].isCurrent == IsCurrent(r[i].slot, CurrentTimeSlot(base, overrides, now))
  {
    var eff := EffectiveDailySchedule(base, now.date, overrides);
    var current := CurrentTimeSlot(base, overrides, now);
    seq(|eff|, i requires 0 <= i < |eff| => TimelineEntry(eff[i], IsPast(eff[i], now), IsCurrent(eff[i], current)))
  }

  /** In a separated list of one day's slots, the entry marked by id is exactly the running one. */
  lemma HighlightById(eff: seq<TimeSlot>, now: Moment, i: int)
    requires Separated(eff) && 0 <= i < |eff|
    requires forall y :: y in eff ==> y.day == eff[i].day
    ensures IsCurrent(eff[i], Find(eff, RunningAt(ClockTime(now)))) <==> Running(eff[i], ClockTime(now))
  {
    var x := eff[i];
    var cur := Find(eff, RunningAt(ClockTime(now)));
    if Running(x, ClockTime(now)) {
      RunningUnique(eff, now, x);
    }
    if cur.Some? {
      var c := cur.value;
      assert Running(c, ClockTime(now));
      assert c != x ==> Apart(c, x);
    }
  }

  /** For a separated template the timeline marks exactly the running entry as current, and marks it
      whenever a lesson is running, overridden or not. */
  lemma TimelineMarksRunning(base: seq<TimeSlot>, overrides: seq<ScheduleOverride>, now: Moment)
    requires Separated(base)
    ensures forall i :: 0 <= i < |Timeline(base, overrides, now)| ==>
      (Timeline(base, overrides, now)[i].isCurrent <==> Running(Timeline(base, overrides, now)[i].slot, ClockTime(now)))
  {
    var eff := EffectiveDailySchedule(base, now.date, overrides);
    EffectiveSeparated(base, now.date, overrides);
    EffectiveScheduleSpec(base, now.date, overrides);
    var t := Timeline(base, overrides, now);
    forall i | 0 <= i < |t| ensures t[i].isCurrent <==> Running(t[i].slot, ClockTime(now)) {
      assert eff[i] in eff;
      HighlightById(eff, now, i);
    }
  }

  // ---------------------------------------------------------------- the current marker as written

  /** Where a JavaScript slot object comes from: the template array itself, or a copy one schedule
      resolution made for an overridden slot. */
  datatype Origin = TemplateObject | CopyOf(call: nat)

  /** A slot object: its fields and its identity. Template objects with equal fields are one object,
      since template slots have distinct ids; so are copies with equal fields made by one resolution. */
  datatype SlotObject = SlotObject(value: TimeSlot, origin: Origin)

  /** One slot resolved by resolution number `call`: an override yields a fresh copy. */
  function ResolveObject(slot: TimeSlot, date: Day, overrides: seq<ScheduleOverride>, call: nat): (r: SlotObject)
    ensures r.value == ApplyOverride(slot, date, overrides)
    ensures r.origin == TemplateObject <==> Find(overrides, MatchesTest(date, slot)).None?
    ensures r.origin != TemplateObject ==> r.origin == CopyOf(call)
  {
    if Find(overrides, MatchesTest(date, slot)).Some? then SlotObject(ApplyOverride(slot, date, overrides), CopyOf(call))
    else SlotObject(slot, TemplateObject)
  }

  function ObjectsOf(slots: seq<TimeSlot>, date: Day, overrides: seq<ScheduleOverride>, call: nat): (r: seq<SlotObject>)
    ensures |r| == |slots|
    ensures forall i :: 0 <= i < |slots| ==> r[i] == ResolveObject(slots[i], date, overrides, call)
  {
    seq(|slots|, i requires 0 <= i < |slots| => ResolveObject(slots[i], date, overrides, call))
  }

  function ObjectStart(o: SlotObject): string
  {
    o.value.startTime
  }

  /** getEffectiveDailySchedule as resolution number `call` builds it, objects and all. */
  function ScheduleObjects(base: seq<TimeSlot>, date: Day, overrides: seq<ScheduleOverride>, call: nat): seq<SlotObject>
  {
    SortBy(ObjectsOf(DaySlots(base, DayName(WeekdayOf(date))), date, overrides, call), ObjectStart)
  }

  function RunningObjectAt(time: string): SlotObject -> bool
  {
    (o: SlotObject) => Running(o.value, time)
  }

  /** getCurrentTimeSlot as resolution number `call` returns it. */
  function CurrentObject(base: seq<TimeSlot>, overrides: seq<ScheduleOverride>, now: Moment, call: nat): Option<SlotObject>
  {
    Find(ScheduleObjects(base, now.date, overrides, call), RunningObjectAt(ClockTime(now)))
  }

  /** `slot === currentSlot`. */
  predicate IsCurrentAsWritten(entry: SlotObject, current: Option<SlotObject>)
  {
    current.Some? && entry == current.value
  }

  /** Every object of one resolution is a template object or a copy that resolution made. */
  lemma ObjectOrigins(base: seq<TimeSlot>, date: Day, overrides: seq<ScheduleOverride>, call: nat, o: SlotObject)
    requires o in ScheduleObjects(base, date, overrides, call)
    ensures o.origin == TemplateObject || o.origin == CopyOf(call)
  {
    var objs := ObjectsOf(DaySlots(base, DayName(WeekdayOf(date))), date, overrides, call);
    SortBySpec(objs, ObjectStart);
    assert o in multiset(ScheduleObjects(base, date, overrides, call));
    var i :| 0 <= i < |objs| && objs[i] == o;
  }

  /** As written, the timeline (resolution 0) never marks a current slot that an override replaced,
      because the dashboard's current slot comes from a second resolution (1) whose copies are other objects. */
  lemma OverriddenCurrentNeverMarked(base: seq<TimeSlot>, overrides: seq<ScheduleOverride>, now: Moment)
    requires CurrentObject(base, overrides, now, 1).Some? && CurrentObject(base, overrides, now, 1).value.origin.CopyOf?
    ensures forall e :: e in ScheduleObjects(base, now.date, overrides, 0) ==> !IsCurrentAsWritten(e, CurrentObject(base, overrides, now, 1))
  {
    var c := CurrentObject(base, overrides, now, 1).value;
    ObjectOrigins(base, now.date, overrides, 1, c);
    forall e | e in ScheduleObjects(base, now.date, overrides, 0) ensures e != c {
      ObjectOrigins(base, now.date, overrides, 0, e);
    }
  }

  const EXAMPLE_SLOT := TimeSlot("Segunda-feira-07:00", Monday, "07:00", "07:45", "EFI")
  const EXAMPLE_OVERRIDE := ScheduleOverride(4, "Segunda-feira-07:00", "MAT")

  /** The 12-CH Monday 07:00 slot alone: on Monday 5 January 1970 (day 4) at 07:30, with it replaced for that day, a lesson is
      running and the current slot is an override copy: as written, no timeline entry is marked; as intended,
      the running entry is. */
  lemma CurrentMarkerCounterexample()
    ensures CurrentObject([EXAMPLE_SLOT], [EXAMPLE_OVERRIDE], Moment(4, 27000), 1).Some?
    ensures CurrentObject([EXAMPLE_SLOT], [EXAMPLE_OVERRIDE], Moment(4, 27000), 1).value.origin.CopyOf?
    ensures forall e :: e in ScheduleObjects([EXAMPLE_SLOT], 4, [EXAMPLE_OVERRIDE], 0) ==>
      !IsCurrentAsWritten(e, CurrentObject([EXAMPLE_SLOT], [EXAMPLE_OVERRIDE], Moment(4, 27000), 1))
    ensures |Timeline([EXAMPLE_SLOT], [EXAMPLE_OVERRIDE], Moment(4, 27000))| == 1
    ensures Timeline([EXAMPLE_SLOT], [EXAMPLE_OVERRIDE], Moment(4, 27000))[0].isCurrent
  {
    var now := Moment(4, 27000);
    assert ClockTime(now) == "07:30";
    ExampleResolution();
    var resolved := EXAMPLE_SLOT.(subjectId := "MAT");
    var copy := SlotObject(resolved, CopyOf(1));
    ExampleObjects();
    assert Running(resolved, "07:30");
    assert FindFirst([copy], RunningObjectAt("07:30")) == Some(0);
    OverriddenCurrentNeverMarked([EXAMPLE_SLOT], [EXAMPLE_OVERRIDE], now);
    ExampleEffective();
    assert FindFirst([resolved], RunningAt("07:30")) == Some(0);
  }

  /** The example's Monday holds its one slot, and the override replaces that slot's subject. */
  lemma ExampleResolution()
    ensures DayName(WeekdayOf(4)) == Monday
    ensures DaySlots([EXAMPLE_SLOT], Monday) == [EXAMPLE_SLOT]
    ensures ApplyOverride(EXAMPLE_SLOT, 4, [EXAMPLE_OVERRIDE]) == EXAMPLE_SLOT.(subjectId := "MAT")
  {
    assert [EXAMPLE_SLOT][1..] == [];
    assert OnDayTest(Monday)(EXAMPLE_SLOT);
    assert Keep([EXAMPLE_SLOT], OnDayTest(Monday)) == [EXAMPLE_SLOT] + Keep([], OnDayTest(Monday));
    assert Find([EXAMPLE_OVERRIDE], MatchesTest(4, EXAMPLE_SLOT)) == Some(EXAMPLE_OVERRIDE) by {
      assert FindFirst([EXAMPLE_OVERRIDE], MatchesTest(4, EXAMPLE_SLOT)) == Some(0);
    }
  }

  /** The example's second resolution is one copy of the overridden slot. */
  lemma ExampleObjects()
    ensures ScheduleObjects([EXAMPLE_SLOT], 4, [EXAMPLE_OVERRIDE], 1) == [SlotObject(EXAMPLE_SLOT.(subjectId := "MAT"), CopyOf(1))]
  {
    ExampleResolution();
    var copy := SlotObject(EXAMPLE_SLOT.(subjectId := "MAT"), CopyOf(1));
    assert ObjectsOf([EXAMPLE_SLOT], 4, [EXAMPLE_OVERRIDE], 1) == [copy];
    assert [copy][1..] == [];
    assert SortBy([copy], ObjectStart) == InsertBy(copy, [], ObjectStart);
  }

  /** The example's effective schedule is the overridden slot alone. */
  lemma ExampleEffective()
    ensures EffectiveDailySchedule([EXAMPLE_SLOT], 4, [EXAMPLE_OVERRIDE]) == [EXAMPLE_SLOT.(subjectId := "MAT")]
  {
    ExampleResolution();
    var resolved := EXAMPLE_SLOT.(subjectId := "MAT");
    assert ResolveAll([EXAMPLE_SLOT], 4, [EXAMPLE_OVERRIDE]) == [resolved];
    assert [resolved][1..] == [];
    assert SortBy([resolved], StartKey) == InsertBy(resolved, [], StartKey);
  }

  // ---------------------------------------------------------------- settings and backup

  /** A chosen backup file as read: text that does not parse, or a parsed value. */
  datatype Imported =
    | Unreadable
    | Parsed(truthy: bool, tasksIsArray: bool, doc: AppData)

  datatype ImportOutcome = ReadError | InvalidBackup | Declined | Restored

  datatype ImportResult = ImportResult(data: AppData, outcome: ImportOutcome)

  /** `reader.onload`: a parse error or a value without a `tasks` array is reported, a declined confirmation does
      nothing, and only a confirmed valid backup replaces the whole document. */
  function Import(data: AppData, file: Imported, confirmed: bool): (r: ImportResult)
    ensures r.outcome == Restored <==> file.Parsed? && file.truthy && file.tasksIsArray && confirmed
    ensures r.outcome == ReadError <==> file.Unreadable?
    ensures r.outcome == InvalidBackup <==> file.Parsed? && !(file.truthy && file.tasksIsArray)
    ensures r.outcome == Restored ==> r.data == file.doc
    ensures r.outcome != Restored ==> r.data == data
  {
    match file
    case Unreadable => ImportResult(data, ReadError)
    case Parsed(truthy, tasksIsArray, doc) =>
      if truthy && tasksIsArray then
        if confirmed then ImportResult(doc, Restored) else ImportResult(data, Declined)
      else ImportResult(data, InvalidBackup)
  }

  /** The page's initial document when nothing is stored. */
  function DefaultDashboardData(): (d: AppData)
    ensures d.selectedClassId == Some("12-CH") && d.userName == Some("Estudante") && d.tasks == []
  {
    AppData(Some("Estudante"), [], [], [], map[], map[], [], [], [], Some("12-CH"), [], [], [], [], None)
  }

  class DashboardView {
    var data: AppData
    var showSettings: bool
    var tempName: string

    constructor(stored: Option<AppData>)
      ensures data == (if stored.Some? then stored.value else DefaultDashboardData())
      ensures !showSettings && tempName == DisplayName(data.userName)
    {
      var d := if stored.Some? then stored.value else DefaultDashboardData();
      data := d;
      showSettings := false;
      tempName := DisplayName(d.userName);
    }

    /** Opening the settings copies the shown name into the edit field. */
    method OpenSettings()
      modifies this
      ensures showSettings && tempName == DisplayName(data.userName) && data == old(data)
    {
      showSettings := true;
      tempName := DisplayName(data.userName);
    }

    method EditName(name: string)
      modifies this
      ensures tempName == name && data == old(data) && showSettings == old(showSettings)
    {
      tempName := name;
    }

    /** `handleClassChange`: only the selected class changes. */
    method HandleClassChange(classId: string)
      modifies this
      ensures data == old(data).(selectedClassId := Some(classId))
      ensures showSettings == old(showSettings) && tempName == old(tempName)
    {
      data := data.(selectedClassId := Some(classId));
    }

    /**
     * `saveName`: only the user name changes, to the edited one. When that
     * changes the stored name while the settings are open, the effect on
     * `[showSettings, data.userName]` copies the shown name back into the
     * field, so an empty name comes back as 'Estudante'.
     */
    method SaveName()
      modifies this
      ensures data == old(data).(userName := Some(old(tempName)))
      ensures showSettings == old(showSettings)
      ensures tempName == if old(showSettings) && old(data).userName != Some(old(tempName))
        then DisplayName(Some(old(tempName))) else old(tempName)
    {
      var changed := data.userName != Some(tempName);
      data := data.(userName := Some(tempName));
      if showSettings && changed {
        tempName := DisplayName(data.userName);
      }
    }

    /** `handleImportData`: with no file chosen nothing happens; a restore also closes the settings. */
    method HandleImportData(file: Option<Imported>, confirmed: bool) returns (outcome: Option<ImportOutcome>)
      modifies this
      ensures file.None? ==> outcome.None? && data == old(data) && showSettings == old(showSettings)
      ensures file.Some? ==> outcome == Some(Import(old(data), file.value, confirmed).outcome)
      ensures file.Some? ==> data == Import(old(data), file.value, confirmed).data
      ensures file.Some? ==> showSettings == (old(showSettings) && outcome != Some(Restored))
      ensures tempName == old(tempName)
    {
      if file.None? {
        return None;
      }
      var r := Import(data, file.value, confirmed);
      data := r.data;
      if r.outcome == Restored {
        showSettings := false;
      }
      outcome := Some(r.outcome);
    }

    /** The timeline the page shows at `now`. */
    function TimelineAt(now: Moment): seq<TimelineEntry>
      reads this
    {
      Timeline(ScheduleForClass(data.selectedClassId), data.scheduleOverrides, now)
    }
  }
}
