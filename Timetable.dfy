// The timetable page: the weekday selector, one day's template slots sorted by
// start and decorated with the override and active reminder found for each,
// and the two per-slot ledgers the page edits — schedule overrides and
// reminders — where saving replaces whatever the slot had before.

module Timetable {
  import opened Types
  import opened Lists
  import opened Constants
  import opened Utils
  import opened App

  // ---------------------------------------------------------------- day selector

  /** `Object.values(DayOfWeek)`: the enumeration in declaration order. */
  const ALL_DAYS: seq<DayOfWeek> := [Monday, Tuesday, Wednesday, Thursday, Friday, Saturday, Sunday]

  predicate IsWeekday(d: DayOfWeek)
  {
    d != Saturday && d != Sunday
  }

  /** The days offered by the selector: the enumeration without the weekend. */
  function SelectableDays(): (r: seq<DayOfWeek>)
    ensures r == [Monday, Tuesday, Wednesday, Thursday, Friday]
    ensures forall d :: d in r <==> IsWeekday(d)
  {
    Keep(ALL_DAYS, d => IsWeekday(d))
  }

  // ---------------------------------------------------------------- displayed schedule

  /** `rawSchedule`: the template's slots for the selected day, by start time. */
  function RawSchedule(template: seq<TimeSlot>, day: DayOfWeek): seq<TimeSlot>
  {
    SortBy(DaySlots(template, day), StartKey)
  }

  /** The raw list is sorted by start, holds the day's template slots exactly as often as the template does,
      and nothing else. */
  lemma RawScheduleSpec(template: seq<TimeSlot>, day: DayOfWeek)
    ensures SortedBy(RawSchedule(template, day), StartKey)
    ensures multiset(RawSchedule(template, day)) == multiset(DaySlots(template, day))
    ensures forall x :: x in RawSchedule(template, day) <==> x in template && x.day == day
  {
    var d := DaySlots(template, day);
    SortBySpec(d, StartKey);
    forall x ensures x in RawSchedule(template, day) <==> x in d {
      assert x in RawSchedule(template, day) <==> x in multiset(RawSchedule(template, day));
      assert x in d <==> x in multiset(d);
    }
  }

  /** A slot as the page shows it. */
  datatype DisplayedSlot = DisplayedSlot(slot: TimeSlot, isOverridden: bool, reminder: Option<Reminder>)

  predicate ForSlot(o: ScheduleOverride, slotId: string)
  {
    o.slotId == slotId
  }

  function ForSlotTest(slotId: string): ScheduleOverride -> bool
  {
    o => ForSlot(o, slotId)
  }

  function OtherSlotTest(slotId: string): ScheduleOverride -> bool
  {
    o => !ForSlot(o, slotId)
  }

  /** The page's override lookup: the first override for the slot, whatever its date. */
  function DisplayOverride(slot: TimeSlot, overrides: seq<ScheduleOverride>): Option<ScheduleOverride>
  {
    Find(overrides, ForSlotTest(slot.id))
  }

  /** One entry of `displayedSchedule`. */
  function Display(slot: TimeSlot, overrides: seq<ScheduleOverride>, reminders: seq<Reminder>): (r: DisplayedSlot)
    ensures SameFrame(r.slot, slot)
    ensures r.reminder == ReminderFor(slot, reminders)
    ensures r.isOverridden <==> exists o :: o in overrides && o.slotId == slot.id
    ensures !r.isOverridden ==> r.slot == slot
    ensures r.isOverridden ==> exists i :: (&& 0 <= i < |overrides| && overrides[i].slotId == slot.id
                                            && r.slot.subjectId == overrides[i].newSubjectId
                                            && forall j :: 0 <= j < i ==> overrides[j].slotId != slot.id)
  {
    var reminder := ReminderFor(slot, reminders);
    match DisplayOverride(slot, overrides)
    case Some(o) => DisplayedSlot(slot.(subjectId := o.newSubjectId), true, reminder)
    case None => DisplayedSlot(slot, false, reminder)
  }

  /** `displayedSchedule`: every raw slot, decorated, in the same order. */
  function DisplayedSchedule(raw: seq<TimeSlot>, overrides: seq<ScheduleOverride>, reminders: seq<Reminder>): (r: seq<DisplayedSlot>)
    ensures |r| == |raw|
    ensures forall i :: 0 <= i < |raw| ==> r[i] == Display(raw[i], overrides, reminders)
  {
    seq(|raw|, i requires 0 <= i < |raw| => Display(raw[i], overrides, reminders))
  }

  /** The page applies an override whatever its date, while the engine applies only one dated that day:
      an override saved yesterday still shows on the page and no longer changes the effective schedule. */
  lemma DisplayIgnoresDate(slot: TimeSlot, today: Day, subjectId: string)
    requires subjectId != slot.subjectId
    ensures Display(slot, [ScheduleOverride(today - 1, slot.id, subjectId)], []).slot.subjectId == subjectId
    ensures ApplyOverride(slot, today, [ScheduleOverride(today - 1, slot.id, subjectId)]) == slot
  {
    var o := ScheduleOverride(today - 1, slot.id, subjectId);
    assert !Matches(o, today, slot);
    assert o in [o];
  }

  /** Over overrides all dated today, the page shows the same subject as the engine resolves. */
  lemma DisplayAgreesToday(slot: TimeSlot, today: Day, overrides: seq<ScheduleOverride>)
    requires forall i :: 0 <= i < |overrides| ==> overrides[i].date == today
    ensures Display(slot, overrides, []).slot == ApplyOverride(slot, today, overrides)
  {
    ApplyOverrideSpec(slot, today, overrides);
    var d := Display(slot, overrides, []);
    if d.isOverridden {
      var i :| (&& 0 <= i < |overrides| && overrides[i].slotId == slot.id
                && d.slot.subjectId == overrides[i].newSubjectId
                && forall j :: 0 <= j < i ==> overrides[j].slotId != slot.id);
      assert Matches(overrides[i], today, slot);
      var k :| (&& 0 <= k < |overrides| && Matches(overrides[k], today, slot)
                && ApplyOverride(slot, today, overrides).subjectId == overrides[k].newSubjectId
                && forall j :: 0 <= j < k ==> !Matches(overrides[j], today, slot));
    } else {
      forall o | o in overrides ensures !Matches(o, today, slot) {
        assert o.slotId != slot.id;
      }
    }
  }

  // ---------------------------------------------------------------- override ledger

  /** `handleOverride`: drop the slot's overrides, whatever their dates, and append one dated today. */
  function WithOverride(overrides: seq<ScheduleOverride>, slotId: string, today: Day, subjectId: string): seq<ScheduleOverride>
  {
    Keep(overrides, OtherSlotTest(slotId)) + [ScheduleOverride(today, slotId, subjectId)]
  }

  /** `handleReset`: drop every override for the slot. */
  function WithoutOverrides(overrides: seq<ScheduleOverride>, slotId: string): seq<ScheduleOverride>
  {
    Keep(overrides, OtherSlotTest(slotId))
  }

  lemma OthersLackSlot(overrides: seq<ScheduleOverride>, slotId: string)
    ensures Keep(WithoutOverrides(overrides, slotId), ForSlotTest(slotId)) == []
  {
    KeepPasses(overrides, OtherSlotTest(slotId));
    KeepNone(WithoutOverrides(overrides, slotId), ForSlotTest(slotId));
  }

  /** After an override, the slot has exactly one override — the new one, dated today, carrying the chosen
      subject, placed last — and the other slots' overrides are the old ones in their old order. */
  lemma WithOverrideSpec(overrides: seq<ScheduleOverride>, slotId: string, today: Day, subjectId: string)
    ensures Keep(WithOverride(overrides, slotId, today, subjectId), ForSlotTest(slotId)) == [ScheduleOverride(today, slotId, subjectId)]
    ensures WithOverride(overrides, slotId, today, subjectId)[|WithOverride(overrides, slotId, today, subjectId)| - 1]
      == ScheduleOverride(today, slotId, subjectId)
    ensures Keep(WithOverride(overrides, slotId, today, subjectId), OtherSlotTest(slotId)) == Keep(overrides, OtherSlotTest(slotId))
  {
    var others := WithoutOverrides(overrides, slotId);
    var o := ScheduleOverride(today, slotId, subjectId);
    KeepAppend(others, [o], ForSlotTest(slotId));
    KeepAppend(others, [o], OtherSlotTest(slotId));
    OthersLackSlot(overrides, slotId);
    KeepIdempotent(overrides, OtherSlotTest(slotId));
    assert Keep([o], ForSlotTest(slotId)) == [o];
    assert Keep([o], OtherSlotTest(slotId)) == [];
  }

  /** An earlier override for the slot is gone after a new one, even when it is for another date. */
  lemma OverrideDiscardsEarlier(overrides: seq<ScheduleOverride>, slotId: string, today: Day, subjectId: string, earlier: ScheduleOverride)
    requires earlier in overrides && earlier.slotId == slotId && earlier.date != today
    ensures earlier !in WithOverride(overrides, slotId, today, subjectId)
  {
    var r := WithOverride(overrides, slotId, today, subjectId);
    WithOverrideSpec(overrides, slotId, today, subjectId);
    KeepSpec(r, ForSlotTest(slotId));
    assert earlier in r ==> earlier in Keep(r, ForSlotTest(slotId));
  }

  /** A reset leaves no override for the slot and keeps every other override, each as often, in order. */
  lemma WithoutOverridesSpec(overrides: seq<ScheduleOverride>, slotId: string)
    ensures forall o :: o in WithoutOverrides(overrides, slotId) <==> o in overrides && o.slotId != slotId
    ensures forall o: ScheduleOverride :: o.slotId != slotId ==> multiset(WithoutOverrides(overrides, slotId))[o] == multiset(overrides)[o]
    ensures Subsequence(WithoutOverrides(overrides, slotId), overrides)
  {
    KeepSpec(overrides, OtherSlotTest(slotId));
  }

  /** Resetting twice is resetting once, and a reset undoes any override saved for the same slot. */
  lemma ResetIdempotent(overrides: seq<ScheduleOverride>, slotId: string, today: Day, subjectId: string)
    ensures WithoutOverrides(WithoutOverrides(overrides, slotId), slotId) == WithoutOverrides(overrides, slotId)
    ensures WithoutOverrides(WithOverride(overrides, slotId, today, subjectId), slotId) == WithoutOverrides(overrides, slotId)
  {
    KeepIdempotent(overrides, OtherSlotTest(slotId));
    WithOverrideSpec(overrides, slotId, today, subjectId);
  }

  // ---------------------------------------------------------------- reminder ledger

  predicate RemindsSlot(r: Reminder, slotId: string)
  {
    r.slotId == slotId
  }

  function RemindsSlotTest(slotId: string): Reminder -> bool
  {
    r => RemindsSlot(r, slotId)
  }

  function RemindsOtherTest(slotId: string): Reminder -> bool
  {
    r => !RemindsSlot(r, slotId)
  }

  /** `saveReminder`: drop the slot's reminders and append an active one with the chosen lead. */
  function WithReminder(reminders: seq<Reminder>, slotId: string, minutes: int): seq<Reminder>
  {
    Keep(reminders, RemindsOtherTest(slotId)) + [Reminder(slotId, minutes, true)]
  }

  /** `removeReminder`: drop every reminder for the slot. */
  function WithoutReminder(reminders: seq<Reminder>, slotId: string): seq<Reminder>
  {
    Keep(reminders, RemindsOtherTest(slotId))
  }

  lemma OthersLackReminder(reminders: seq<Reminder>, slotId: string)
    ensures Keep(WithoutReminder(reminders, slotId), RemindsSlotTest(slotId)) == []
    ensures forall i :: 0 <= i < |WithoutReminder(reminders, slotId)| ==> WithoutReminder(reminders, slotId)[i].slotId != slotId
  {
    KeepPasses(reminders, RemindsOtherTest(slotId));
    KeepNone(WithoutReminder(reminders, slotId), RemindsSlotTest(slotId));
  }

  /** After saving, the slot has exactly one reminder — active, with the chosen lead, placed last — and the
      other slots' reminders are the old ones in their old order. */
  lemma WithReminderSpec(reminders: seq<Reminder>, slotId: string, minutes: int)
    ensures Keep(WithReminder(reminders, slotId, minutes), RemindsSlotTest(slotId)) == [Reminder(slotId, minutes, true)]
    ensures WithReminder(reminders, slotId, minutes)[|WithReminder(reminders, slotId, minutes)| - 1] == Reminder(slotId, minutes, true)
    ensures Keep(WithReminder(reminders, slotId, minutes), RemindsOtherTest(slotId)) == Keep(reminders, RemindsOtherTest(slotId))
  {
    var others := WithoutReminder(reminders, slotId);
    var r := Reminder(slotId, minutes, true);
    KeepAppend(others, [r], RemindsSlotTest(slotId));
    KeepAppend(others, [r], RemindsOtherTest(slotId));
    OthersLackReminder(reminders, slotId);
    KeepIdempotent(reminders, RemindsOtherTest(slotId));
    assert Keep([r], RemindsSlotTest(slotId)) == [r];
    assert Keep([r], RemindsOtherTest(slotId)) == [];
  }

  /** The reminder check finds exactly the reminder just saved for the slot, and finds none once it is removed. */
  lemma SavedReminderFound(reminders: seq<Reminder>, slot: TimeSlot, minutes: int)
    ensures ReminderFor(slot, WithReminder(reminders, slot.id, minutes)) == Some(Reminder(slot.id, minutes, true))
    ensures ReminderFor(slot, WithoutReminder(reminders, slot.id)) == None
  {
    var others := WithoutReminder(reminders, slot.id);
    var r := Reminder(slot.id, minutes, true);
    OthersLackReminder(reminders, slot.id);
    FindAfterMisses(others, [r], x => ActiveFor(slot, x));
    assert Find([r], x => ActiveFor(slot, x)) == Some(r) by {
      assert FindFirst([r], x => ActiveFor(slot, x)) == Some(0);
    }
    forall x | x in others ensures !ActiveFor(slot, x) {
      var i :| 0 <= i < |others| && others[i] == x;
    }
  }

  /** Removing twice is removing once; removing after saving is removing; other slots' reminders stay. */
  lemma WithoutReminderSpec(reminders: seq<Reminder>, slotId: string, minutes: int)
    ensures WithoutReminder(WithoutReminder(reminders, slotId), slotId) == WithoutReminder(reminders, slotId)
    ensures WithoutReminder(WithReminder(reminders, slotId, minutes), slotId) == WithoutReminder(reminders, slotId)
    ensures forall r :: r in WithoutReminder(reminders, slotId) <==> r in reminders && r.slotId != slotId
  {
    KeepIdempotent(reminders, RemindsOtherTest(slotId));
    WithReminderSpec(reminders, slotId, minutes);
    KeepSpec(reminders, RemindsOtherTest(slotId));
  }

  // ---------------------------------------------------------------- page state

  /** The page's initial document when nothing is stored. */
  function DefaultTimetableData(): (d: AppData)
    ensures d.selectedClassId == Some("12-CH") && d.scheduleOverrides == [] && d.reminders == []
  {
    AppData(None, [], [], [], map[], map[], [], [], [], Some("12-CH"), [], [], [], [], None)
  }

  /** The page's state: its copy of the document, the selected day and the slot whose reminder dialog is open. */
  class TimetableView {
    var data: AppData
    var selectedDay: DayOfWeek
    var selectedSlotForEdit: Option<TimeSlot>
    var selectedSlotForReminder: Option<TimeSlot>

    /** The page opens on Monday with no dialog, over the stored document or the default one. */
    constructor(stored: Option<AppData>)
      ensures data == (if stored.Some? then stored.value else DefaultTimetableData())
      ensures selectedDay == Monday && selectedSlotForEdit == None && selectedSlotForReminder == None
    {
      data := if stored.Some? then stored.value else DefaultTimetableData();
      selectedDay := Monday;
      selectedSlotForEdit := None;
      selectedSlotForReminder := None;
    }

    /** What the page lists for the selected day. */
    function Shown(): seq<DisplayedSlot>
      reads this
    {
      DisplayedSchedule(RawSchedule(ScheduleForClass(data.selectedClassId), selectedDay), data.scheduleOverrides, data.reminders)
    }

    method SelectDay(day: DayOfWeek)
      modifies this
      ensures selectedDay == day
      ensures data == old(data) && selectedSlotForEdit == old(selectedSlotForEdit) && selectedSlotForReminder == old(selectedSlotForReminder)
    {
      selectedDay := day;
    }

    method OpenReminderDialog(slot: TimeSlot)
      modifies this
      ensures selectedSlotForReminder == Some(slot)
      ensures data == old(data) && selectedDay == old(selectedDay) && selectedSlotForEdit == old(selectedSlotForEdit)
    {
      selectedSlotForReminder := Some(slot);
    }

    method HandleOverride(slot: TimeSlot, newSubjectId: string, today: Day)
      modifies this
      ensures data == old(data).(scheduleOverrides := WithOverride(old(data).scheduleOverrides, slot.id, today, newSubjectId))
      ensures selectedSlotForEdit == None
      ensures selectedDay == old(selectedDay) && selectedSlotForReminder == old(selectedSlotForReminder)
    {
      var filtered := Keep(data.scheduleOverrides, OtherSlotTest(slot.id));
      data := data.(scheduleOverrides := filtered + [ScheduleOverride(today, slot.id, newSubjectId)]);
      selectedSlotForEdit := None;
    }

    method HandleReset(slotId: string)
      modifies this
      ensures data == old(data).(scheduleOverrides := WithoutOverrides(old(data).scheduleOverrides, slotId))
      ensures selectedDay == old(selectedDay)
      ensures selectedSlotForEdit == old(selectedSlotForEdit) && selectedSlotForReminder == old(selectedSlotForReminder)
    {
      data := data.(scheduleOverrides := Keep(data.scheduleOverrides, OtherSlotTest(slotId)));
    }

    /** Does nothing when no slot's dialog is open; otherwise saves and closes the dialog. */
    method SaveReminder(minutes: int)
      modifies this
      ensures old(selectedSlotForReminder).None? ==> data == old(data) && selectedSlotForReminder == None
      ensures old(selectedSlotForReminder).Some? ==>
        data == old(data).(reminders := WithReminder(old(data).reminders, old(selectedSlotForReminder).value.id, minutes))
      ensures selectedSlotForReminder == None
      ensures selectedDay == old(selectedDay) && selectedSlotForEdit == old(selectedSlotForEdit)
    {
      if selectedSlotForReminder.None? {
        return;
      }
      var slotId := selectedSlotForReminder.value.id;
      var filtered := Keep(data.reminders, RemindsOtherTest(slotId));
      data := data.(reminders := filtered + [Reminder(slotId, minutes, true)]);
      selectedSlotForReminder := None;
    }

    method RemoveReminder()
      modifies this
      ensures old(selectedSlotForReminder).None? ==> data == old(data)
      ensures old(selectedSlotForReminder).Some? ==>
        data == old(data).(reminders := WithoutReminder(old(data).reminders, old(selectedSlotForReminder).value.id))
      ensures selectedSlotForReminder == None
      ensures selectedDay == old(selectedDay) && selectedSlotForEdit == old(selectedSlotForEdit)
    {
      if selectedSlotForReminder.None? {
        return;
      }
      data := data.(reminders := Keep(data.reminders, RemindsOtherTest(selectedSlotForReminder.value.id)));
      selectedSlotForReminder := None;
    }
  }
}
