// The reminder check the application shell runs once a minute: read the
// saved reminders, look at today's slots of the selected class's template
// (overrides are not applied here), and raise a notification for every slot
// whose reminder time is the current minute. Storage, the clock and the
// notification permission are parameters; a notification is an outcome value.

module App {
  import opened Types
  import opened Text
  import opened Clock
  import opened Lists
  import opened Constants
  import opened Utils

  /** What local storage holds under the application key. */
  datatype Stored =
    | NoEntry                                    // no entry, or an empty string
    | Unparseable                                // JSON.parse throws
    | Saved(reminders: Option<seq<Reminder>>, selectedClassId: Option<string>)

  /** The part of the saved document the check reads. */
  datatype SavedData = SavedData(reminders: seq<Reminder>, selectedClassId: Option<string>)

  /** getSavedData: the stored document, or one with no reminders when there is none or it does not parse. */
  function GetSavedData(stored: Stored): (d: SavedData)
    ensures !stored.Saved? ==> d.reminders == [] && d.selectedClassId.None?
    ensures stored.Saved? ==> d.selectedClassId == stored.selectedClassId
    ensures stored.Saved? && stored.reminders.Some? ==> d.reminders == stored.reminders.value
  {
    match stored
    case Saved(r, c) => SavedData(if r.Some? then r.value else [], c)
    case _ => SavedData([], None)
  }

  /** Notification.permission, or Unsupported when the Notification API is missing. */
  datatype Permission = Granted | Default | Denied | Unsupported

  /** How a due reminder reaches the user. */
  datatype Delivery = Native | RequestPermission | Alert

  function DeliveryFor(p: Permission): (d: Delivery)
    ensures d == Native <==> p == Granted
    ensures d == RequestPermission <==> p == Default
    ensures d == Alert <==> p == Denied || p == Unsupported
  {
    match p
    case Granted => Native
    case Default => RequestPermission
    case _ => Alert
  }

  datatype Notification = Notification(slotId: string, message: string, delivery: Delivery)

  /** The minute of the day `minutesBefore` minutes before `start`, wrapping around midnight. */
  function TriggerMinute(start: string, minutesBefore: int): (m: nat)
    requires WellFormedTime(start)
    ensures m < MinutesPerDay
    ensures (m + minutesBefore - MinuteOfDay(start)) % MinutesPerDay == 0
  {
    (MinuteOfDay(start) - minutesBefore) % MinutesPerDay
  }

  predicate ActiveFor(slot: TimeSlot, r: Reminder)
  {
    r.slotId == slot.id && r.active
  }

  /** `reminders.find(r => r.slotId === slot.id && r.active)`. */
  function ReminderFor(slot: TimeSlot, reminders: seq<Reminder>): Option<Reminder>
  {
    Find(reminders, r => ActiveFor(slot, r))
  }

  /** The notification text. */
  function Message(subjectName: string, minutesBefore: int): string
  {
    "A aula de " + subjectName + " começa em " + IntToString(minutesBefore) + " minutos!"
  }

  /** A slot the check can examine: the source parses its start and looks its subject up unguarded. */
  predicate Examinable(slot: TimeSlot)
  {
    WellFormedTime(slot.startTime) && slot.subjectId in SUBJECTS
  }

  /** The slot's active reminder is due at the current minute. */
  predicate Due(slot: TimeSlot, reminders: seq<Reminder>, now: Moment)
    requires WellFormedTime(slot.startTime)
  {
    var r := ReminderFor(slot, reminders);
    r.Some? && ClockTime(now) == FormatTime(TriggerMinute(slot.startTime, r.value.minutesBefore))
  }

  function NotificationFor(slot: TimeSlot, reminders: seq<Reminder>, now: Moment, p: Permission): Notification
    requires Examinable(slot) && Due(slot, reminders, now)
  {
    var r := ReminderFor(slot, reminders).value;
    Notification(slot.id, Message(SUBJECTS[slot.subjectId].name, r.minutesBefore), DeliveryFor(p))
  }

  /** What examining one slot raises: its notification when due, nothing otherwise.
      (A slot that is not examinable makes the source throw; template slots never are.) */
  function Raised(slot: TimeSlot, reminders: seq<Reminder>, now: Moment, p: Permission): (r: seq<Notification>)
    ensures |r| <= 1
    ensures |r| == 1 <==> Examinable(slot) && Due(slot, reminders, now)
    ensures forall n :: n in r ==> n.slotId == slot.id
  {
    if Examinable(slot) && Due(slot, reminders, now) then [NotificationFor(slot, reminders, now, p)] else []
  }

  function RaisedBy(reminders: seq<Reminder>, now: Moment, p: Permission): TimeSlot -> seq<Notification>
  {
    slot => Raised(slot, reminders, now, p)
  }

  function NotificationSlot(n: Notification): string
  {
    n.slotId
  }

  function SlotIdOf(s: TimeSlot): string
  {
    s.id
  }

  /** The slots of today in the selected class's template. */
  function TodaySlots(data: SavedData, now: Moment): seq<TimeSlot>
  {
    DaySlots(ScheduleForClass(data.selectedClassId), DayName(WeekdayOf(now.date)))
  }

  lemma TodaySlotsExaminable(data: SavedData, now: Moment)
    ensures forall s :: s in TodaySlots(data, now) ==> Examinable(s) && s in ScheduleForClass(data.selectedClassId)
  {
    var t := ScheduleForClass(data.selectedClassId);
    TemplatesValid(data.selectedClassId);
    ValidTemplateFacts(t);
    forall s | s in t ensures WellFormedTime(s.startTime) {
      var i :| 0 <= i < |t| && t[i] == s;
    }
  }

  /** What one check raises. */
  function Notifications(stored: Stored, now: Moment, p: Permission): seq<Notification>
  {
    var data := GetSavedData(stored);
    if data.reminders == [] then []
    else FlatMap(TodaySlots(data, now), RaisedBy(data.reminders, now, p))
  }

  /** checkReminders: read the saved data, stop when there are no reminders, otherwise examine today's slots. */
  method CheckReminders(stored: Stored, now: Moment, p: Permission) returns (raised: seq<Notification>)
    ensures raised == Notifications(stored, now, p)
  {
    var data := GetSavedData(stored);
    if data.reminders == [] {
      return [];
    }
    var todaySlots := TodaySlots(data, now);
    TodaySlotsExaminable(data, now);
    raised := RaiseAll(todaySlots, data.reminders, now, p);
  }

  /** The `forEach` over today's slots: raise each slot's notification when its reminder is due. */
  method RaiseAll(slots: seq<TimeSlot>, reminders: seq<Reminder>, now: Moment, p: Permission) returns (raised: seq<Notification>)
    requires forall s :: s in slots ==> Examinable(s)
    ensures raised == FlatMap(slots, RaisedBy(reminders, now, p))
  {
    var currentTime := ClockTime(now);
    raised := [];
    var i := 0;
    while i < |slots|
      invariant 0 <= i <= |slots|
      invariant raised == FlatMap(slots[..i], RaisedBy(reminders, now, p))
    {
      var slot := slots[i];
      assert slots[..i + 1][..i] == slots[..i];
      assert slot in slots;
      var reminder := ReminderFor(slot, reminders);
      if reminder.Some? {
        var trigger := TriggerMinute(slot.startTime, reminder.value.minutesBefore);
        if currentTime == FormatTime(trigger) {
          var msg := Message(SUBJECTS[slot.subjectId].name, reminder.value.minutesBefore);
          raised := raised + [Notification(slot.id, msg, DeliveryFor(p))];
        }
      }
      i := i + 1;
    }
    assert slots[..i] == slots;
  }

  // ---------------------------------------------------------------- properties

  /** No reminders saved, nothing stored, or storage that does not parse: nothing is raised. */
  lemma NothingWithoutReminders(stored: Stored, now: Moment, p: Permission)
    requires !stored.Saved? || stored.reminders.None? || stored.reminders == Some([])
    ensures Notifications(stored, now, p) == []
  {
  }

  /** A slot is due exactly when the current minute is its start less the reminder's lead, modulo a day. */
  lemma DueMinute(slot: TimeSlot, reminders: seq<Reminder>, now: Moment)
    requires WellFormedTime(slot.startTime)
    ensures Due(slot, reminders, now) <==>
      var r := ReminderFor(slot, reminders);
      r.Some? && (now.second / 60 + r.value.minutesBefore - MinuteOfDay(slot.startTime)) % MinutesPerDay == 0
  {
    var r := ReminderFor(slot, reminders);
    if r.Some? {
      var m := TriggerMinute(slot.startTime, r.value.minutesBefore);
      TimeEquality(ClockTime(now), FormatTime(m));
      var k := now.second / 60;
      assert (k + r.value.minutesBefore - MinuteOfDay(slot.startTime)) % MinutesPerDay == 0 ==> k == m by {
        ModEqual(k, m, r.value.minutesBefore - MinuteOfDay(slot.startTime));
      }
    }
  }

  /** Two minutes of the day that agree modulo a day after the same shift are equal. */
  lemma ModEqual(k: int, m: int, c: int)
    requires 0 <= k < MinutesPerDay && 0 <= m < MinutesPerDay
    requires (m + c) % MinutesPerDay == 0
    ensures (k + c) % MinutesPerDay == 0 ==> k == m
  {
    if (k + c) % MinutesPerDay == 0 {
      var a := (k + c) / MinutesPerDay;
      var b := (m + c) / MinutesPerDay;
      assert k + c == MinutesPerDay * a;
      assert m + c == MinutesPerDay * b;
      assert k - m == MinutesPerDay * (a - b);
    }
  }

  /** A reminder ten minutes before 19:00 is due at 18:50, and not at 18:49 or 18:51; one before 00:05 is due at 23:55. */
  lemma TriggerExamples()
    ensures TriggerMinute("19:00", 10) == MinuteOfDay("18:50")
    ensures TriggerMinute("19:00", 10) != MinuteOfDay("18:49")
    ensures TriggerMinute("19:00", 10) != MinuteOfDay("18:51")
    ensures TriggerMinute("00:05", 10) == MinuteOfDay("23:55")
  {
  }

  lemma MessageExample()
    ensures Message("Literatura", 10) == "A aula de Literatura começa em 10 minutos!"
  {
    assert IntToString(10) == "10";
  }

  /** `n` is the notification of one of `slots` whose reminder is due now. */
  predicate RaisedFrom(n: Notification, slots: seq<TimeSlot>, reminders: seq<Reminder>, now: Moment, p: Permission)
  {
    exists s :: s in slots && Examinable(s) && Due(s, reminders, now) && n == NotificationFor(s, reminders, now, p)
  }

  /** Examining slots with distinct ids raises at most one notification per slot, each the notification
      of an examined slot that is due now. */
  lemma RaisedFacts(slots: seq<TimeSlot>, reminders: seq<Reminder>, now: Moment, p: Permission)
    requires forall i, j :: 0 <= i < j < |slots| ==> slots[i].id != slots[j].id
    ensures |FlatMap(slots, RaisedBy(reminders, now, p))| <= |slots|
    ensures forall i, j :: 0 <= i < j < |FlatMap(slots, RaisedBy(reminders, now, p))| ==>
      FlatMap(slots, RaisedBy(reminders, now, p))[i].slotId != FlatMap(slots, RaisedBy(reminders, now, p))[j].slotId
    ensures forall k :: 0 <= k < |FlatMap(slots, RaisedBy(reminders, now, p))| ==>
      RaisedFrom(FlatMap(slots, RaisedBy(reminders, now, p))[k], slots, reminders, now, p)
  {
    var f := RaisedBy(reminders, now, p);
    FlatMapSpec(slots, f);
    var ns := FlatMap(slots, f);
    forall k | 0 <= k < |ns| ensures RaisedFrom(ns[k], slots, reminders, now, p) {
      assert EmittedBy(ns[k], slots, f);
      var i :| 0 <= i < |slots| && ns[k] in f(slots[i]);
      var s := slots[i];
      assert ns[k] in Raised(s, reminders, now, p);
    }
    FlatMapUnique(slots, f, NotificationSlot, SlotIdOf);
  }

  /** Today's slots are slots of the selected class's template on today's weekday, examinable, with distinct ids. */
  lemma TodaySlotsFacts(data: SavedData, now: Moment)
    ensures var slots := TodaySlots(data, now);
      && (forall s :: s in slots ==> s in ScheduleForClass(data.selectedClassId) && s.day == DayName(WeekdayOf(now.date)) && Examinable(s))
      && (forall i, j :: 0 <= i < j < |slots| ==> slots[i].id != slots[j].id)
  {
    var t := ScheduleForClass(data.selectedClassId);
    var day := DayName(WeekdayOf(now.date));
    TodaySlotsExaminable(data, now);
    TemplatesValid(data.selectedClassId);
    ValidTemplateFacts(t);
    KeepUnique(t, OnDayTest(day), SlotIdOf);
    KeepSpec(t, OnDayTest(day));
  }

  /** One check raises at most one notification per slot of today, each the notification of one of
      today's slots whose reminder is due now. */
  lemma CheckFacts(stored: Stored, now: Moment, p: Permission)
    ensures |Notifications(stored, now, p)| <= |TodaySlots(GetSavedData(stored), now)|
    ensures forall i, j :: 0 <= i < j < |Notifications(stored, now, p)| ==>
      Notifications(stored, now, p)[i].slotId != Notifications(stored, now, p)[j].slotId
    ensures forall k :: 0 <= k < |Notifications(stored, now, p)| ==>
      RaisedFrom(Notifications(stored, now, p)[k], TodaySlots(GetSavedData(stored), now), GetSavedData(stored).reminders, now, p)
  {
    var data := GetSavedData(stored);
    if data.reminders != [] {
      TodaySlotsFacts(data, now);
      RaisedFacts(TodaySlots(data, now), data.reminders, now, p);
    }
  }

  /** A due slot of today raises its notification. */
  lemma DueSlotRaises(stored: Stored, now: Moment, p: Permission, s: TimeSlot)
    requires GetSavedData(stored).reminders != []
    requires s in TodaySlots(GetSavedData(stored), now)
    requires WellFormedTime(s.startTime) && Due(s, GetSavedData(stored).reminders, now)
    ensures s.subjectId in SUBJECTS
    ensures NotificationFor(s, GetSavedData(stored).reminders, now, p) in Notifications(stored, now, p)
  {
    var data := GetSavedData(stored);
    TodaySlotsExaminable(data, now);
    DueRaises(TodaySlots(data, now), data.reminders, now, p, s);
  }

  lemma DueRaises(slots: seq<TimeSlot>, reminders: seq<Reminder>, now: Moment, p: Permission, s: TimeSlot)
    requires s in slots && Examinable(s) && Due(s, reminders, now)
    ensures NotificationFor(s, reminders, now, p) in FlatMap(slots, RaisedBy(reminders, now, p))
  {
    var i :| 0 <= i < |slots| && slots[i] == s;
    FlatMapContains(slots, RaisedBy(reminders, now, p), i);
    assert Raised(s, reminders, now, p) == [NotificationFor(s, reminders, now, p)];
  }
}
