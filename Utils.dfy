// The schedule engine: the weekday of a date, the effective timetable of a
// day once the user's date-scoped overrides are applied, the slot running
// now and the next one, the time left in a slot, and the study streak.
// The clock is a parameter: every function that reads "now" takes a Moment.

module Utils {
  import opened Types
  import opened Text
  import opened Clock
  import opened Lists
  import opened Constants

  const SecondsPerDay := 86400

  type SecondOfDay = s: int | 0 <= s < 86400

  /** An instant: the day number of its date and the second of that day. */
  datatype Moment = Moment(date: Day, second: SecondOfDay)

  /** getDay of a date: day 0 is 1 January 1970, a Thursday. */
  function WeekdayOf(d: Day): WeekdayIndex
  {
    (d + 4) % 7
  }

  /** `format(now, 'HH:mm')`. */
  function ClockTime(now: Moment): (s: string)
    ensures WellFormedTime(s) && MinuteOfDay(s) == now.second / 60
  {
    FormatTime(now.second / 60)
  }

  // ---------------------------------------------------------------- getDayName

  /** getDayName: the weekday name for getDay's index. */
  function DayName(i: WeekdayIndex): (d: DayOfWeek)
    ensures DayNumber(d) == i
  {
    match i
    case 0 => Sunday
    case 1 => Monday
    case 2 => Tuesday
    case 3 => Wednesday
    case 4 => Thursday
    case 5 => Friday
    case 6 => Saturday
  }

  /** Index and name are in one-to-one correspondence. */
  lemma DayNameBijective(d: DayOfWeek, i: WeekdayIndex)
    ensures DayName(DayNumber(d)) == d
    ensures DayName(i) == d <==> DayNumber(d) == i
  {
  }

  /** Consecutive dates fall on consecutive weekdays, and the week repeats after seven days. */
  lemma WeekdayStep(d: Day)
    ensures WeekdayOf(d + 1) == (WeekdayOf(d) + 1) % 7
    ensures WeekdayOf(d + 7) == WeekdayOf(d)
  {
  }

  // ---------------------------------------------------------------- effective schedule

  predicate OnDay(slot: TimeSlot, day: DayOfWeek)
  {
    slot.day == day
  }

  function OnDayTest(day: DayOfWeek): TimeSlot -> bool
  {
    s => OnDay(s, day)
  }

  /** The template's slots for one weekday, in template order. */
  function DaySlots(base: seq<TimeSlot>, day: DayOfWeek): (r: seq<TimeSlot>)
    ensures forall x :: x in r <==> x in base && x.day == day
  {
    KeepSpec(base, OnDayTest(day));
    Keep(base, OnDayTest(day))
  }

  predicate Matches(o: ScheduleOverride, date: Day, slot: TimeSlot)
  {
    o.date == date && o.slotId == slot.id
  }

  function MatchesTest(date: Day, slot: TimeSlot): ScheduleOverride -> bool
  {
    o => Matches(o, date, slot)
  }

  /** The slot with the first override for its id on that date applied, if there is one. */
  function ApplyOverride(slot: TimeSlot, date: Day, overrides: seq<ScheduleOverride>): (r: TimeSlot)
    ensures SameFrame(r, slot)
  {
    match Find(overrides, MatchesTest(date, slot))
    case None => slot
    case Some(o) => slot.(subjectId := o.newSubjectId)
  }

  /** Two slots with the same id, day and times: they may differ in subject only. */
  predicate SameFrame(a: TimeSlot, b: TimeSlot)
  {
    a.id == b.id && a.day == b.day && a.startTime == b.startTime && a.endTime == b.endTime
  }

  /** The subject is the first matching override's, or the slot's own when no override matches. */
  lemma ApplyOverrideSpec(slot: TimeSlot, date: Day, overrides: seq<ScheduleOverride>)
    ensures (forall o :: o in overrides ==> !Matches(o, date, slot)) ==> ApplyOverride(slot, date, overrides) == slot
    ensures (exists o :: o in overrides && Matches(o, date, slot)) ==>
      exists i :: 0 <= i < |overrides| && Matches(overrides[i], date, slot)
        && ApplyOverride(slot, date, overrides).subjectId == overrides[i].newSubjectId
        && forall j :: 0 <= j < i ==> !Matches(overrides[j], date, slot)
  {
  }

  /** `slots.map(applyOverride)`. */
  function ResolveAll(slots: seq<TimeSlot>, date: Day, overrides: seq<ScheduleOverride>): (r: seq<TimeSlot>)
    ensures |r| == |slots|
    ensures forall i :: 0 <= i < |slots| ==> SameFrame(r[i], slots[i])
    decreases |slots|
  {
    if slots == [] then []
    else [ApplyOverride(slots[0], date, overrides)] + ResolveAll(slots[1..], date, overrides)
  }

  /** Each position holds that slot with its override applied. */
  lemma {:induction false} ResolveAllAt(slots: seq<TimeSlot>, date: Day, overrides: seq<ScheduleOverride>)
    ensures forall i :: 0 <= i < |slots| ==> ResolveAll(slots, date, overrides)[i] == ApplyOverride(slots[i], date, overrides)
    decreases |slots|
  {
    if slots != [] {
      ResolveAllAt(slots[1..], date, overrides);
    }
  }

  function StartKey(t: TimeSlot): string
  {
    t.startTime
  }

  /** getEffectiveDailySchedule: the date's weekday slots, overrides applied, sorted by start time. */
  function EffectiveDailySchedule(base: seq<TimeSlot>, date: Day, overrides: seq<ScheduleOverride>): seq<TimeSlot>
  {
    SortBy(ResolveAll(DaySlots(base, DayName(WeekdayOf(date))), date, overrides), StartKey)
  }

  /** Every resolved slot is a template slot of that weekday, with at most its subject replaced
      by an override dated that day; every template slot of that weekday is there, resolved. */
  lemma EffectiveScheduleSpec(base: seq<TimeSlot>, date: Day, overrides: seq<ScheduleOverride>)
    ensures SortedBy(EffectiveDailySchedule(base, date, overrides), StartKey)
    ensures |EffectiveDailySchedule(base, date, overrides)| == |DaySlots(base, DayName(WeekdayOf(date)))|
    ensures forall x :: x in EffectiveDailySchedule(base, date, overrides) ==> x.day == DayName(WeekdayOf(date))
    ensures forall x :: x in EffectiveDailySchedule(base, date, overrides) ==>
      exists s :: s in base && s.day == DayName(WeekdayOf(date)) && x == ApplyOverride(s, date, overrides)
    ensures forall s :: s in base && s.day == DayName(WeekdayOf(date)) ==>
      ApplyOverride(s, date, overrides) in EffectiveDailySchedule(base, date, overrides)
  {
    var day := DayName(WeekdayOf(date));
    SortBySpec(ResolveAll(DaySlots(base, day), date, overrides), StartKey);
    EffectiveFromTemplate(base, date, overrides);
    EffectiveCoversTemplate(base, date, overrides);
  }

  /** Every resolved slot comes from a template slot of that weekday. */
  lemma EffectiveFromTemplate(base: seq<TimeSlot>, date: Day, overrides: seq<ScheduleOverride>)
    ensures forall x :: x in EffectiveDailySchedule(base, date, overrides) ==>
      exists s :: s in base && s.day == DayName(WeekdayOf(date)) && x == ApplyOverride(s, date, overrides)
  {
    var day := DayName(WeekdayOf(date));
    var slots := DaySlots(base, day);
    var resolved := ResolveAll(slots, date, overrides);
    SortBySpec(resolved, StartKey);
    ResolveAllAt(slots, date, overrides);
    var r := EffectiveDailySchedule(base, date, overrides);
    forall x | x in r
      ensures exists s :: s in base && s.day == day && x == ApplyOverride(s, date, overrides)
    {
      assert x in multiset(r);
      var i :| 0 <= i < |resolved| && resolved[i] == x;
      assert slots[i] in slots;
    }
  }

  /** Every template slot of that weekday is in the result, resolved. */
  lemma EffectiveCoversTemplate(base: seq<TimeSlot>, date: Day, overrides: seq<ScheduleOverride>)
    ensures forall s :: s in base && s.day == DayName(WeekdayOf(date)) ==>
      ApplyOverride(s, date, overrides) in EffectiveDailySchedule(base, date, overrides)
  {
    var day := DayName(WeekdayOf(date));
    var slots := DaySlots(base, day);
    var resolved := ResolveAll(slots, date, overrides);
    SortBySpec(resolved, StartKey);
    ResolveAllAt(slots, date, overrides);
    var r := EffectiveDailySchedule(base, date, overrides);
    forall s | s in base && s.day == day
      ensures ApplyOverride(s, date, overrides) in r
    {
      var i :| 0 <= i < |slots| && slots[i] == s;
      assert resolved[i] in multiset(resolved);
    }
  }

  /** With no override dated that day, the result is the weekday's template slots, reordered by start. */
  lemma NoOverridesKeepsTemplate(base: seq<TimeSlot>, date: Day, overrides: seq<ScheduleOverride>)
    requires forall o :: o in overrides ==> o.date != date
    ensures multiset(EffectiveDailySchedule(base, date, overrides)) == multiset(DaySlots(base, DayName(WeekdayOf(date))))
  {
    var slots := DaySlots(base, DayName(WeekdayOf(date)));
    var resolved := ResolveAll(slots, date, overrides);
    ResolveAllAt(slots, date, overrides);
    assert resolved == slots;
    SortBySpec(resolved, StartKey);
  }

  /** Overrides dated another day have no effect. */
  lemma OtherDatesIgnored(base: seq<TimeSlot>, date: Day, overrides: seq<ScheduleOverride>)
    ensures EffectiveDailySchedule(base, date, overrides)
         == EffectiveDailySchedule(base, date, Keep(overrides, (o: ScheduleOverride) => o.date == date))
  {
    var slots := DaySlots(base, DayName(WeekdayOf(date)));
    var kept := Keep(overrides, (o: ScheduleOverride) => o.date == date);
    forall s | s in slots ensures ApplyOverride(s, date, overrides) == ApplyOverride(s, date, kept) {
      FindKeep(overrides, (o: ScheduleOverride) => o.date == date, MatchesTest(date, s));
    }
    ResolveAllAt(slots, date, overrides);
    ResolveAllAt(slots, date, kept);
    assert ResolveAll(slots, date, overrides) == ResolveAll(slots, date, kept);
  }

  // ---------------------------------------------------------------- separated slot lists

  /** Well-formed slots with unique ids, no two of the same day overlapping. */
  predicate Separated(ts: seq<TimeSlot>)
  {
    && (forall a :: a in ts ==> WellTimed(a))
    && (forall a, b :: a in ts && b in ts && a != b ==> Apart(a, b))
  }

  /** Two slots with different ids that do not overlap. */
  predicate Apart(a: TimeSlot, b: TimeSlot)
  {
    WellTimed(a) && WellTimed(b) && a.id != b.id && Disjoint(a, b)
  }

  lemma ValidTemplateSeparated(ts: seq<TimeSlot>)
    requires ValidTemplate(ts)
    ensures Separated(ts)
  {
    ValidTemplateFacts(ts);
    forall a, b | a in ts && b in ts && a != b ensures Apart(a, b) {
      var i :| 0 <= i < |ts| && ts[i] == a;
      var j :| 0 <= j < |ts| && ts[j] == b;
    }
  }

  /** Well-formedness and disjointness depend only on ids, days and times. */
  lemma SameFrameSeparated(a: TimeSlot, a2: TimeSlot, b: TimeSlot, b2: TimeSlot)
    requires SameFrame(a, a2) && SameFrame(b, b2)
    requires Apart(a, b)
    ensures Apart(a2, b2)
  {
  }

  lemma ResolveAllSeparated(slots: seq<TimeSlot>, date: Day, overrides: seq<ScheduleOverride>)
    requires Separated(slots)
    ensures Separated(ResolveAll(slots, date, overrides))
  {
    var r := ResolveAll(slots, date, overrides);
    forall x | x in r ensures WellTimed(x) {
      var i :| 0 <= i < |r| && r[i] == x;
      assert slots[i] in slots && SameFrame(x, slots[i]);
    }
    forall x, y | x in r && y in r && x != y ensures Apart(x, y) {
      var i :| 0 <= i < |r| && r[i] == x;
      var j :| 0 <= j < |r| && r[j] == y;
      ResolvePairSeparated(slots, date, overrides, i, j);
    }
  }

  lemma ResolvePairSeparated(slots: seq<TimeSlot>, date: Day, overrides: seq<ScheduleOverride>, i: int, j: int)
    requires Separated(slots) && 0 <= i < |slots| && 0 <= j < |slots|
    requires ResolveAll(slots, date, overrides)[i] != ResolveAll(slots, date, overrides)[j]
    ensures Apart(ResolveAll(slots, date, overrides)[i], ResolveAll(slots, date, overrides)[j])
  {
    var r := ResolveAll(slots, date, overrides);
    ResolveAllAt(slots, date, overrides);
    var a, b := slots[i], slots[j];
    assert a in slots && b in slots && a != b;
    SameFrameSeparated(a, r[i], b, r[j]);
  }

  /** The day's effective schedule of a separated template is separated. */
  lemma EffectiveSeparated(base: seq<TimeSlot>, date: Day, overrides: seq<ScheduleOverride>)
    requires Separated(base)
    ensures Separated(EffectiveDailySchedule(base, date, overrides))
  {
    var slots := DaySlots(base, DayName(WeekdayOf(date)));
    var resolved := ResolveAll(slots, date, overrides);
    ResolveAllSeparated(slots, date, overrides);
    SortBySpec(resolved, StartKey);
    var r := EffectiveDailySchedule(base, date, overrides);
    forall x | x in r ensures x in resolved {
      assert x in multiset(r);
    }
  }

  // ---------------------------------------------------------------- current and next slot

  predicate Running(slot: TimeSlot, time: string)
  {
    LexLessEq(slot.startTime, time) && LexLess(time, slot.endTime)
  }

  predicate Upcoming(slot: TimeSlot, time: string)
  {
    LexLess(time, slot.startTime)
  }

  function RunningAt(time: string): TimeSlot -> bool
  {
    s => Running(s, time)
  }

  function UpcomingAt(time: string): TimeSlot -> bool
  {
    s => Upcoming(s, time)
  }

  /** getCurrentTimeSlot: the first resolved slot with start <= now < end. */
  function CurrentTimeSlot(schedule: seq<TimeSlot>, overrides: seq<ScheduleOverride>, now: Moment): Option<TimeSlot>
  {
    Find(EffectiveDailySchedule(schedule, now.date, overrides), RunningAt(ClockTime(now)))
  }

  /** getNextTimeSlot: the first resolved slot starting after now; today only. */
  function NextTimeSlot(schedule: seq<TimeSlot>, overrides: seq<ScheduleOverride>, now: Moment): Option<TimeSlot>
  {
    Find(EffectiveDailySchedule(schedule, now.date, overrides), UpcomingAt(ClockTime(now)))
  }

  /** For a well-formed slot, running means the current minute lies in the half-open range [start, end). */
  lemma RunningMinutes(slot: TimeSlot, now: Moment)
    requires WellFormedTime(slot.startTime) && WellFormedTime(slot.endTime)
    ensures Running(slot, ClockTime(now)) <==>
      MinuteOfDay(slot.startTime) <= now.second / 60 < MinuteOfDay(slot.endTime)
  {
    TimeOrderEq(slot.startTime, ClockTime(now));
    TimeOrder(ClockTime(now), slot.endTime);
  }

  /** The current slot is one of today's resolved slots and is running; when there is none, no slot of today is running. */
  lemma CurrentTimeSlotSpec(schedule: seq<TimeSlot>, overrides: seq<ScheduleOverride>, now: Moment)
    ensures var r := CurrentTimeSlot(schedule, overrides, now);
      && (r.Some? ==> r.value in EffectiveDailySchedule(schedule, now.date, overrides) && Running(r.value, ClockTime(now)))
      && (r.None? <==> forall x :: x in EffectiveDailySchedule(schedule, now.date, overrides) ==> !Running(x, ClockTime(now)))
  {
  }

  /** A slot is no longer current at its end time. */
  lemma NotCurrentAtEnd(schedule: seq<TimeSlot>, overrides: seq<ScheduleOverride>, now: Moment)
    ensures var r := CurrentTimeSlot(schedule, overrides, now);
      r.Some? ==> r.value.endTime != ClockTime(now)
  {
    var r := CurrentTimeSlot(schedule, overrides, now);
    if r.Some? {
      LexIrreflexive(ClockTime(now));
    }
  }

  /** In a separated list, a running slot is the first running one. */
  lemma RunningUnique(eff: seq<TimeSlot>, now: Moment, x: TimeSlot)
    requires Separated(eff) && x in eff && Running(x, ClockTime(now))
    requires forall y :: y in eff ==> y.day == x.day
    ensures Find(eff, RunningAt(ClockTime(now))) == Some(x)
  {
    assert RunningAt(ClockTime(now))(x);
    var c := Find(eff, RunningAt(ClockTime(now))).value;
    assert RunningAt(ClockTime(now))(c);
    if c != x {
      assert Apart(c, x);
      RunningMinutes(c, now);
      RunningMinutes(x, now);
    }
  }

  /** In a separated template at most one slot is running: any running one is the current slot. */
  lemma CurrentUnique(schedule: seq<TimeSlot>, overrides: seq<ScheduleOverride>, now: Moment, x: TimeSlot)
    requires Separated(schedule)
    requires x in EffectiveDailySchedule(schedule, now.date, overrides) && Running(x, ClockTime(now))
    ensures CurrentTimeSlot(schedule, overrides, now) == Some(x)
  {
    EffectiveSeparated(schedule, now.date, overrides);
    EffectiveScheduleSpec(schedule, now.date, overrides);
    RunningUnique(EffectiveDailySchedule(schedule, now.date, overrides), now, x);
  }

  /** In a list sorted by start, the first slot starting after `time` starts no later than any other such slot. */
  lemma FirstUpcomingEarliest(eff: seq<TimeSlot>, time: string)
    requires SortedBy(eff, StartKey)
    ensures var r := Find(eff, UpcomingAt(time));
      r.Some? ==> forall x :: x in eff && Upcoming(x, time) ==> LexLessEq(r.value.startTime, x.startTime)
  {
    var r := Find(eff, UpcomingAt(time));
    if r.Some? {
      var i :| 0 <= i < |eff| && eff[i] == r.value && UpcomingAt(time)(eff[i])
        && forall j :: 0 <= j < i ==> !UpcomingAt(time)(eff[j]);
      forall x | x in eff && Upcoming(x, time) ensures LexLessEq(r.value.startTime, x.startTime) {
        var k :| 0 <= k < |eff| && eff[k] == x;
        assert UpcomingAt(time)(x);
        if k > i {
          assert LexLessEq(StartKey(eff[i]), StartKey(eff[k]));
        }
      }
    }
  }

  /** The next slot starts after now, is the earliest such slot of today, and is absent exactly when none remains today. */
  lemma NextTimeSlotSpec(schedule: seq<TimeSlot>, overrides: seq<ScheduleOverride>, now: Moment)
    ensures var eff := EffectiveDailySchedule(schedule, now.date, overrides);
      var r := NextTimeSlot(schedule, overrides, now);
      && (r.Some? ==> r.value in eff && Upcoming(r.value, ClockTime(now)))
      && (r.Some? ==> forall x :: x in eff && Upcoming(x, ClockTime(now)) ==> LexLessEq(r.value.startTime, x.startTime))
      && (r.None? <==> forall x :: x in eff ==> !Upcoming(x, ClockTime(now)))
  {
    EffectiveScheduleSpec(schedule, now.date, overrides);
    FirstUpcomingEarliest(EffectiveDailySchedule(schedule, now.date, overrides), ClockTime(now));
  }

  /** In a separated list, a running slot ends no later than any later-starting slot begins. */
  lemma RunningBeforeUpcoming(eff: seq<TimeSlot>, now: Moment, c: TimeSlot, n: TimeSlot)
    requires Separated(eff) && c in eff && n in eff
    requires Running(c, ClockTime(now)) && Upcoming(n, ClockTime(now)) && c.day == n.day
    ensures WellTimed(c) && WellTimed(n) && MinuteOfDay(c.endTime) <= MinuteOfDay(n.startTime)
  {
    RunningMinutes(c, now);
    TimeOrder(ClockTime(now), n.startTime);
    assert c != n;
    assert Apart(c, n);
  }

  /** When a slot is running and another is still to come, the running one ends before the next one starts. */
  lemma CurrentBeforeNext(schedule: seq<TimeSlot>, overrides: seq<ScheduleOverride>, now: Moment)
    requires Separated(schedule)
    ensures var c := CurrentTimeSlot(schedule, overrides, now);
      var n := NextTimeSlot(schedule, overrides, now);
      c.Some? && n.Some? ==>
        WellTimed(c.value) && WellTimed(n.value)
        && MinuteOfDay(c.value.endTime) <= MinuteOfDay(n.value.startTime)
  {
    var c := CurrentTimeSlot(schedule, overrides, now);
    var n := NextTimeSlot(schedule, overrides, now);
    if c.Some? && n.Some? {
      EffectiveSeparated(schedule, now.date, overrides);
      EffectiveScheduleSpec(schedule, now.date, overrides);
      CurrentTimeSlotSpec(schedule, overrides, now);
      NextTimeSlotSpec(schedule, overrides, now);
      RunningBeforeUpcoming(EffectiveDailySchedule(schedule, now.date, overrides), now, c.value, n.value);
    }
  }

  // ---------------------------------------------------------------- time left

  /** The text of a duration of `minutes` whole minutes: "Hh Mm", or "Mm" under an hour. */
  function DurationText(minutes: nat): (s: string)
  {
    var h, m := minutes / 60, minutes % 60;
    if h > 0 then NatToString(h) + "h " + NatToString(m) + "m" else NatToString(m) + "m"
  }

  /** calculateTimeLeft: whole minutes from now to `endTime` today, "0m" once it has passed.
      The model returns "NaNm" for every end time that is not "HH:mm"; the date parsing
      the source relies on also accepts some other forms, such as "07:30:15" or "24:00". */
  function TimeLeft(endTime: string, now: Moment): (s: string)
  {
    if !WellFormedTime(endTime) then "NaNm"
    else
      var diff := 60 * MinuteOfDay(endTime) - now.second;
      if diff <= 0 then "0m" else DurationText(diff / 60)
  }

  predicate IsH(c: char)
  {
    c == 'h'
  }

  /** Reads back the number of minutes a duration text denotes. */
  function ReadDuration(s: string): Option<nat>
  {
    if |s| < 2 || s[|s| - 1] != 'm' then None
    else
      match FindFirst(s, IsH)
      case None =>
        if AllDigits(s[..|s| - 1]) then Some(ParseNat(s[..|s| - 1])) else None
      case Some(k) =>
        if k + 2 <= |s| - 1 && s[k + 1] == ' ' && AllDigits(s[..k]) && AllDigits(s[k + 2..|s| - 1])
        then Some(60 * ParseNat(s[..k]) + ParseNat(s[k + 2..|s| - 1]))
        else None
  }

  /** How a text with an hour part reads, once its pieces are known. */
  lemma ReadWithHours(s: string, k: nat)
    requires |s| >= 2 && s[|s| - 1] == 'm' && FindFirst(s, IsH) == Some(k)
    requires k + 2 <= |s| - 1 && s[k + 1] == ' ' && AllDigits(s[..k]) && AllDigits(s[k + 2..|s| - 1])
    ensures ReadDuration(s) == Some(60 * ParseNat(s[..k]) + ParseNat(s[k + 2..|s| - 1]))
  {
    var found := FindFirst(s, IsH);
    assert found == Some(k);
  }

  /** The pieces of "<hours>h <minutes>m". */
  lemma HoursPieces(hs: string, ms: string)
    ensures var s := hs + "h " + ms + "m";
      && |s| == |hs| + |ms| + 3
      && s[..|hs|] == hs && s[|hs|] == 'h' && s[|hs| + 1] == ' ' && s[|s| - 1] == 'm' && s[|hs| + 2..|s| - 1] == ms
  {
    var s := hs + "h " + ms + "m";
    var t := "h " + ms + "m";
    assert s == hs + t;
    assert s[|hs|..] == t;
    assert t[2..] == ms + "m";
    assert s[|hs| + 2..] == ms + "m";
    assert (ms + "m")[..|ms|] == ms;
  }

  /** Reading "<digits>h <digits>m". */
  lemma ReadHoursMinutes(hs: string, ms: string)
    requires |hs| >= 1 && |ms| >= 1 && AllDigits(hs) && AllDigits(ms)
    ensures ReadDuration(hs + "h " + ms + "m") == Some(60 * ParseNat(hs) + ParseNat(ms))
  {
    HoursPieces(hs, ms);
    HoursFound(hs, ms);
    ReadWithHours(hs + "h " + ms + "m", |hs|);
  }

  /** The first 'h' of "<digits>h <minutes>m" is the one after the digits. */
  lemma HoursFound(hs: string, ms: string)
    requires AllDigits(hs)
    ensures FindFirst(hs + "h " + ms + "m", IsH) == Some(|hs|)
  {
    var s := hs + "h " + ms + "m";
    HoursPieces(hs, ms);
    forall j | 0 <= j < |hs| ensures !IsH(s[j]) {
      assert s[j] == hs[j];
    }
    FindFirstAt(s, IsH, |hs|);
  }

  /** Reading "<digits>m". */
  lemma ReadMinutes(ms: string)
    requires |ms| >= 1 && AllDigits(ms)
    ensures ReadDuration(ms + "m") == Some(ParseNat(ms))
  {
    var s := ms + "m";
    assert s[..|s| - 1] == ms;
    assert forall j :: 0 <= j < |ms| ==> s[j] == ms[j];
    assert !IsH(s[|s| - 1]);
    assert FindFirst(s, IsH).None?;
  }

  /** A search finds the first position whose element passes. */
  lemma FindFirstAt<T>(s: seq<T>, p: T -> bool, k: nat)
    requires k < |s| && p(s[k]) && forall j :: 0 <= j < k ==> !p(s[j])
    ensures FindFirst(s, p) == Some(k)
  {
  }

  /** The duration text reads back as the number of minutes it was made from. */
  lemma DurationTextRoundTrip(minutes: nat)
    ensures ReadDuration(DurationText(minutes)) == Some(minutes)
  {
    var h, m := minutes / 60, minutes % 60;
    assert minutes == 60 * h + m;
    ParseNatToString(m);
    if h > 0 {
      ParseNatToString(h);
      assert DurationText(minutes) == NatToString(h) + "h " + NatToString(m) + "m";
      ReadHoursMinutes(NatToString(h), NatToString(m));
    } else {
      assert DurationText(minutes) == NatToString(m) + "m";
      ReadMinutes(NatToString(m));
    }
  }

  /** Once the end has come the text is "0m"; before it, the text denotes the whole minutes left. */
  lemma TimeLeftSpec(endTime: string, now: Moment)
    requires WellFormedTime(endTime)
    ensures 60 * MinuteOfDay(endTime) <= now.second ==> TimeLeft(endTime, now) == "0m"
    ensures 60 * MinuteOfDay(endTime) > now.second ==>
      ReadDuration(TimeLeft(endTime, now)) == Some((60 * MinuteOfDay(endTime) - now.second) / 60)
  {
    var diff := 60 * MinuteOfDay(endTime) - now.second;
    if diff > 0 {
      DurationTextRoundTrip(diff / 60);
    }
  }

  // ---------------------------------------------------------------- streak

  /** The length of the run of consecutive days at the head of a descending list. */
  function RunLength(s: seq<int>): nat
    decreases |s|
  {
    if |s| == 0 then 0
    else if |s| >= 2 && s[0] - s[1] == 1 then 1 + RunLength(s[1..])
    else 1
  }

  /** The streak the source computes, as a function of the dates and today. */
  function Streak(dates: seq<Day>, today: Day): nat
  {
    var sorted := DistinctDescending(dates);
    if sorted == [] then 0
    else if sorted[0] != today && sorted[0] != today - 1 then 0
    else RunLength(sorted)
  }

  /** calculateStreak. */
  method CalculateStreak(dates: seq<Day>, today: Day) returns (streak: nat)
    ensures streak == Streak(dates, today)
  {
    if |dates| == 0 {
      return 0;
    }
    var sorted := DistinctDescending(dates);
    DistinctDescendingSpec(dates);
    assert dates[0] in sorted;
    if sorted[0] != today && sorted[0] != today - 1 {
      return 0;
    }
    streak := 1;
    var current := sorted[0];
    var i := 1;
    while i < |sorted|
      invariant 1 <= i <= |sorted|
      invariant streak == i && current == sorted[i - 1]
      invariant RunLength(sorted) == (i - 1) + RunLength(sorted[i - 1..])
      decreases |sorted| - i
    {
      var prev := sorted[i];
      assert sorted[i - 1..][1..] == sorted[i..];
      if current - prev == 1 {
        streak := streak + 1;
        current := prev;
      } else {
        return;
      }
      i := i + 1;
    }
  }

  /** No dates, or neither today nor yesterday logged (only stale or only future dates), is no streak. */
  lemma StreakZero(dates: seq<Day>, today: Day)
    ensures |dates| == 0 ==> Streak(dates, today) == 0
    ensures (forall d :: d in dates ==> d != today && d != today - 1) ==> Streak(dates, today) == 0
    ensures (forall d :: d in dates ==> d < today - 1) ==> Streak(dates, today) == 0
  {
    DistinctDescendingSpec(dates);
    var sorted := DistinctDescending(dates);
    if sorted != [] {
      assert sorted[0] in dates;
    }
  }

  lemma {:induction false} RunLengthSpec(s: seq<int>)
    requires StrictlyDescending(s) && |s| > 0
    ensures 1 <= RunLength(s) <= |s|
    ensures forall j :: 0 <= j < RunLength(s) ==> s[j] == s[0] - j
    ensures RunLength(s) < |s| ==> s[RunLength(s)] < s[0] - RunLength(s)
    decreases |s|
  {
    if |s| >= 2 && s[0] - s[1] == 1 {
      var t := s[1..];
      assert StrictlyDescending(t);
      RunLengthSpec(t);
      forall j | 0 <= j < RunLength(s) ensures s[j] == s[0] - j {
        if j > 0 {
          assert s[j] == t[j - 1];
        }
      }
    } else if |s| >= 2 {
      assert s[1] < s[0];
    }
  }

  /** A live streak of n counts n consecutive days ending at the newest date: each of them has
      activity, the day before them has none, and n is at most the number of distinct dates. */
  lemma StreakCharacterization(dates: seq<Day>, today: Day)
    requires Streak(dates, today) > 0
    ensures var newest := DistinctDescending(dates)[0];
      var n := Streak(dates, today);
      && (newest == today || newest == today - 1)
      && (forall d :: d in dates ==> d <= newest)
      && (forall d :: newest - n < d <= newest ==> d in dates)
      && newest - n !in dates
      && n <= |DistinctDescending(dates)| <= |dates|
  {
    var sorted := DistinctDescending(dates);
    DistinctDescendingSpec(dates);
    RunLengthSpec(sorted);
    HeadIsMax(sorted);
    RunMembers(sorted);
    GapAfterRun(sorted);
  }

  /** The head of a strictly descending list is its largest member. */
  lemma HeadIsMax(s: seq<int>)
    requires StrictlyDescending(s) && |s| > 0
    ensures forall x :: x in s ==> x <= s[0]
  {
    forall x | x in s ensures x <= s[0] {
      var k :| 0 <= k < |s| && s[k] == x;
      assert k == 0 || s[0] > s[k];
    }
  }

  /** Every day of the head run is in the list. */
  lemma RunMembers(s: seq<int>)
    requires StrictlyDescending(s) && |s| > 0
    ensures forall d :: s[0] - RunLength(s) < d <= s[0] ==> d in s
  {
    RunLengthSpec(s);
    forall d | s[0] - RunLength(s) < d <= s[0] ensures d in s {
      var j := s[0] - d;
      assert s[j] == d;
    }
  }

  /** The day just before the head run of a strictly descending list is not in it. */
  lemma GapAfterRun(s: seq<int>)
    requires StrictlyDescending(s) && |s| > 0
    ensures s[0] - RunLength(s) !in s
  {
    RunLengthSpec(s);
    var n := RunLength(s);
    forall k | 0 <= k < |s| ensures s[k] != s[0] - n {
      if k < n {
        assert s[k] == s[0] - k;
      } else if k > n {
        assert s[k] < s[n];
      }
    }
  }

  /** Repeating a date changes nothing. */
  lemma StreakIgnoresDuplicates(dates: seq<Day>, today: Day, d: Day)
    requires d in dates
    ensures Streak(dates + [d], today) == Streak(dates, today)
  {
    DistinctSameMembers(dates + [d], dates);
  }

  /** Lists with the same members have the same distinct descending form. */
  lemma DistinctSameMembers(a: seq<int>, b: seq<int>)
    requires forall x :: x in a <==> x in b
    ensures DistinctDescending(a) == DistinctDescending(b)
  {
    DistinctDescendingSpec(a);
    DistinctDescendingSpec(b);
    StrictlyDescendingUnique(DistinctDescending(a), DistinctDescending(b));
  }

  /** A strictly descending list is determined by its members. */
  lemma {:induction false} StrictlyDescendingUnique(s: seq<int>, t: seq<int>)
    requires StrictlyDescending(s) && StrictlyDescending(t)
    requires forall x :: x in s <==> x in t
    ensures s == t
    decreases |s|
  {
    assert |s| > 0 ==> s[0] in s && s[0] in t;
    assert |t| > 0 ==> t[0] in t && t[0] in s;
    if s != [] && t != [] {
      HeadIsMax(s);
      HeadIsMax(t);
      assert s[0] == t[0];
      forall x ensures x in s[1..] <==> x in t[1..] {
        if x in s[1..] {
          var k :| 1 <= k < |s| && s[k] == x;
          assert x < s[0] && x in t;
        }
        if x in t[1..] {
          var k :| 1 <= k < |t| && t[k] == x;
          assert x < t[0] && x in s;
        }
      }
      StrictlyDescendingUnique(s[1..], t[1..]);
      assert s == [s[0]] + s[1..] && t == [t[0]] + t[1..];
    }
  }

  /** The worked examples: activity on days 1, 2 and 3 is a streak of 3 on day 3 and 0 on day 5; days 1 and 3 give 1 on day 3. */
  lemma StreakExamples()
    ensures Streak([1, 2, 3], 3) == 3
    ensures Streak([1, 2, 3], 5) == 0
    ensures Streak([3, 1, 3], 3) == 1
  {
  }
}
