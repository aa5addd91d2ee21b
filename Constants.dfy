// The static reference data: subjects, the weekly timetable templates of the
// two classes, the template lookup with its fallback, and the default
// absence limit; with the facts about the templates the rest relies on.

module Constants {
  import opened Types
  import opened Text
  import opened Clock
  import opened Lists

  const SUBJECTS: map<string, Subject> := map[
    "LIT" := Subject("LIT", "Literatura", "Lit", "amber-500"),
    "ING" := Subject("ING", "Língua Inglesa", "Inglês", "blue-500"),
    "GEO" := Subject("GEO", "Geografia", "Geo", "emerald-500"),
    "EFI" := Subject("EFI", "Educação Física", "Ed. Física", "lime-500"),
    "FRA" := Subject("FRA", "Língua Francesa", "Francês", "indigo-500"),
    "POR" := Subject("POR", "Língua Portuguesa", "Português", "rose-500"),
    "PSA" := Subject("PSA", "Psicologia/Sociologia/Antropologia", "Psi/Soc", "purple-500"),
    "EMP" := Subject("EMP", "Empreendedorismo", "Empreend.", "cyan-500"),
    "HIS" := Subject("HIS", "História", "Hist", "orange-500"),
    "FIL" := Subject("FIL", "Filosofia", "Filo", "teal-500"),
    "MAT" := Subject("MAT", "Matemática", "Mat", "indigo-600"),
    "FREE" := Subject("FREE", "Vago / Estudo Livre", "Livre", "slate-400")
  ]

  /** The keys of SUBJECTS in declaration order (the order of Object.values). */
  const SUBJECT_IDS: seq<string> :=
    ["LIT", "ING", "GEO", "EFI", "FRA", "POR", "PSA", "EMP", "HIS", "FIL", "MAT", "FREE"]

  const DEFAULT_MAX_ABSENCES := 10

  /** The id every template slot gets: the day's name, a dash, the start time. */
  function SlotId(day: DayOfWeek, start: string): string
  {
    DayLabel(day) + "-" + start
  }

  function CreateSlot(day: DayOfWeek, start: string, end: string, subjectId: string): (t: TimeSlot)
    ensures t.day == day && t.startTime == start && t.endTime == end && t.subjectId == subjectId
    ensures t.id == SlotId(day, start)
  {
    TimeSlot(SlotId(day, start), day, start, end, subjectId)
  }

  /** The 12-CH week, listed day by day as the source lists it. */
  const SCHEDULE_12_CH: seq<TimeSlot> :=
    MONDAY_12_CH + TUESDAY_12_CH + WEDNESDAY_12_CH + THURSDAY_12_CH + FRIDAY_12_CH

  const MONDAY_12_CH: seq<TimeSlot> := [
    CreateSlot(Monday, "07:00", "07:45", "EFI"),
    CreateSlot(Monday, "18:10", "18:50", "LIT"),
    CreateSlot(Monday, "19:00", "19:45", "LIT"),
    CreateSlot(Monday, "19:50", "20:35", "ING"),
    CreateSlot(Monday, "20:40", "21:25", "ING"),
    CreateSlot(Monday, "21:30", "22:15", "GEO"),
    CreateSlot(Monday, "22:20", "23:05", "FREE")
  ]

  const TUESDAY_12_CH: seq<TimeSlot> := [
    CreateSlot(Tuesday, "18:10", "18:50", "FREE"),
    CreateSlot(Tuesday, "19:00", "19:45", "FRA"),
    CreateSlot(Tuesday, "19:50", "20:35", "POR"),
    CreateSlot(Tuesday, "20:40", "21:25", "POR"),
    CreateSlot(Tuesday, "21:30", "22:15", "PSA"),
    CreateSlot(Tuesday, "22:20", "23:05", "PSA")
  ]

  const WEDNESDAY_12_CH: seq<TimeSlot> := [
    CreateSlot(Wednesday, "18:10", "18:50", "ING"),
    CreateSlot(Wednesday, "19:00", "19:45", "ING"),
    CreateSlot(Wednesday, "19:50", "20:35", "GEO"),
    CreateSlot(Wednesday, "20:40", "21:25", "GEO"),
    CreateSlot(Wednesday, "21:30", "22:15", "EMP"),
    CreateSlot(Wednesday, "22:20", "23:05", "EMP")
  ]

  const THURSDAY_12_CH: seq<TimeSlot> := [
    CreateSlot(Thursday, "18:10", "18:50", "HIS"),
    CreateSlot(Thursday, "19:00", "19:45", "HIS"),
    CreateSlot(Thursday, "19:50", "20:35", "FIL"),
    CreateSlot(Thursday, "20:40", "21:25", "FIL"),
    CreateSlot(Thursday, "21:30", "22:15", "FREE"),
    CreateSlot(Thursday, "22:20", "23:05", "FREE")
  ]

  const FRIDAY_12_CH: seq<TimeSlot> := [
    CreateSlot(Friday, "07:50", "08:35", "EFI"),
    CreateSlot(Friday, "18:10", "18:50", "POR"),
    CreateSlot(Friday, "19:00", "19:45", "POR"),
    CreateSlot(Friday, "19:50", "20:35", "FRA"),
    CreateSlot(Friday, "20:40", "21:25", "FRA"),
    CreateSlot(Friday, "21:30", "22:15", "HIS"),
    CreateSlot(Friday, "22:20", "23:05", "FREE")
  ]

  const SCHEDULE_11_CH: seq<TimeSlot> := [
    CreateSlot(Monday, "18:10", "18:50", "MAT"),
    CreateSlot(Monday, "19:00", "19:45", "MAT"),
    CreateSlot(Monday, "19:50", "20:35", "POR"),
    CreateSlot(Monday, "20:40", "21:25", "POR")
  ]

  const SCHEDULES: map<string, seq<TimeSlot>> := map["12-CH" := SCHEDULE_12_CH, "11-CH" := SCHEDULE_11_CH]

  /** `SCHEDULES[classId || '12-CH'] || SCHEDULE_12_CH`; None is an undefined id. */
  function ScheduleForClass(classId: Option<string>): (t: seq<TimeSlot>)
    ensures classId == Some("11-CH") ==> t == SCHEDULE_11_CH
    ensures classId != Some("11-CH") ==> t == SCHEDULE_12_CH
  {
    var key := if classId.None? || classId.value == "" then "12-CH" else classId.value;
    if key in SCHEDULES then SCHEDULES[key] else SCHEDULE_12_CH
  }

  // ---------------------------------------------------------------- template facts

  /** A slot as every template slot is built: id from day and start, times well formed and in order. */
  predicate WellFormedSlot(t: TimeSlot)
  {
    t.id == SlotId(t.day, t.startTime) && WellTimed(t)
  }

  /** Start and end are "HH:mm" times and the slot starts before it ends. */
  predicate WellTimed(t: TimeSlot)
  {
    && WellFormedTime(t.startTime) && WellFormedTime(t.endTime)
    && MinuteOfDay(t.startTime) < MinuteOfDay(t.endTime)
  }

  /** `b` comes after `a` in the week: on a later day, or the same day once `a` has ended. */
  predicate Follows(a: TimeSlot, b: TimeSlot)
  {
    && WellFormedSlot(a) && WellFormedSlot(b)
    && DayNumber(a.day) <= DayNumber(b.day)
    && (a.day == b.day ==> MinuteOfDay(a.endTime) <= MinuteOfDay(b.startTime))
  }

  /** Every slot follows every slot listed before it. */
  predicate Ordered(ts: seq<TimeSlot>)
  {
    forall i, j :: 0 <= i < j < |ts| ==> Follows(ts[i], ts[j])
  }

  /** Two slots of the same day never share a minute. */
  predicate Disjoint(a: TimeSlot, b: TimeSlot)
    requires WellTimed(a) && WellTimed(b)
  {
    a.day == b.day ==>
      MinuteOfDay(a.endTime) <= MinuteOfDay(b.startTime) || MinuteOfDay(b.endTime) <= MinuteOfDay(a.startTime)
  }

  lemma FollowsTransitive()
    ensures Transitive(Follows)
  {
  }

  /** A list in which each slot follows its predecessor is ordered. */
  lemma LinkedOrdered(ts: seq<TimeSlot>)
    requires Linked(ts, Follows)
    ensures Ordered(ts)
  {
    FollowsTransitive();
    LinkedPairwise(ts, Follows);
  }

  /** In an ordered list, two different positions on the same day are disjoint slots. */
  lemma OrderedDisjoint(ts: seq<TimeSlot>, i: int, j: int)
    requires Ordered(ts) && 0 <= i < |ts| && 0 <= j < |ts| && i != j
    ensures WellFormedSlot(ts[i]) && WellFormedSlot(ts[j]) && Disjoint(ts[i], ts[j])
  {
    if i < j {
      assert Follows(ts[i], ts[j]);
    } else {
      assert Follows(ts[j], ts[i]);
    }
  }

  /** The first three letters tell the day names apart. */
  lemma DayLabelPrefix(d: DayOfWeek, e: DayOfWeek)
    ensures |DayLabel(d)| >= 3
    ensures DayLabel(d)[..3] == DayLabel(e)[..3] ==> d == e
  {
    assert DayLabel(d)[..3] == Abbreviation(d);
    assert DayLabel(e)[..3] == Abbreviation(e);
  }

  function Abbreviation(d: DayOfWeek): (s: string)
    ensures s == DayLabel(d)[..3]
  {
    match d
    case Monday => "Seg"
    case Tuesday => "Ter"
    case Wednesday => "Qua"
    case Thursday => "Qui"
    case Friday => "Sex"
    case Saturday => "Sáb"
    case Sunday => "Dom"
  }

  /** A slot id determines its day and its start time. */
  lemma SlotIdInjective(d: DayOfWeek, s: string, e: DayOfWeek, t: string)
    ensures SlotId(d, s) == SlotId(e, t) <==> d == e && s == t
  {
    if SlotId(d, s) == SlotId(e, t) {
      DayLabelPrefix(d, e);
      DayLabelPrefix(e, d);
      assert SlotId(d, s)[..3] == DayLabel(d)[..3];
      assert SlotId(e, t)[..3] == DayLabel(e)[..3];
      var n := |DayLabel(d)| + 1;
      assert SlotId(d, s)[n..] == s;
      assert SlotId(e, t)[n..] == t;
    }
  }

  /** Slots of an ordered list have pairwise different ids. */
  lemma OrderedDistinctIds(ts: seq<TimeSlot>)
    requires Ordered(ts)
    ensures forall i, j :: 0 <= i < |ts| && 0 <= j < |ts| && i != j ==> ts[i].id != ts[j].id
  {
    forall i, j | 0 <= i < |ts| && 0 <= j < |ts| && i != j ensures ts[i].id != ts[j].id {
      OrderedDisjoint(ts, i, j);
      SlotIdInjective(ts[i].day, ts[i].startTime, ts[j].day, ts[j].startTime);
    }
  }

  lemma MondayLinked() ensures Linked(MONDAY_12_CH, Follows) {}
  lemma TuesdayLinked() ensures Linked(TUESDAY_12_CH, Follows) {}
  lemma WednesdayLinked() ensures Linked(WEDNESDAY_12_CH, Follows) {}
  lemma ThursdayLinked() ensures Linked(THURSDAY_12_CH, Follows) {}
  lemma FridayLinked() ensures Linked(FRIDAY_12_CH, Follows) {}

  lemma MondayTuesday() ensures Follows(MONDAY_12_CH[6], TUESDAY_12_CH[0]) {}
  lemma TuesdayWednesday() ensures Follows(TUESDAY_12_CH[5], WEDNESDAY_12_CH[0]) {}
  lemma WednesdayThursday() ensures Follows(WEDNESDAY_12_CH[5], THURSDAY_12_CH[0]) {}
  lemma ThursdayFriday() ensures Follows(THURSDAY_12_CH[5], FRIDAY_12_CH[0]) {}

  lemma UpToTuesday() ensures Linked(MONDAY_12_CH + TUESDAY_12_CH, Follows)
  {
    MondayLinked();
    TuesdayLinked();
    MondayTuesday();
    LinkedAppend(MONDAY_12_CH, TUESDAY_12_CH, Follows);
  }

  lemma UpToWednesday() ensures Linked(MONDAY_12_CH + TUESDAY_12_CH + WEDNESDAY_12_CH, Follows)
  {
    var w := MONDAY_12_CH + TUESDAY_12_CH;
    UpToTuesday();
    WednesdayLinked();
    TuesdayWednesday();
    assert w[|w| - 1] == TUESDAY_12_CH[5];
    LinkedAppend(w, WEDNESDAY_12_CH, Follows);
  }

  lemma UpToThursday() ensures Linked(MONDAY_12_CH + TUESDAY_12_CH + WEDNESDAY_12_CH + THURSDAY_12_CH, Follows)
  {
    var w := MONDAY_12_CH + TUESDAY_12_CH + WEDNESDAY_12_CH;
    UpToWednesday();
    ThursdayLinked();
    WednesdayThursday();
    assert w[|w| - 1] == WEDNESDAY_12_CH[5];
    LinkedAppend(w, THURSDAY_12_CH, Follows);
  }

  /** The 12-CH week is linked: Monday to Friday, slots in time order. */
  lemma Schedule12Linked()
    ensures Linked(SCHEDULE_12_CH, Follows)
  {
    var w := MONDAY_12_CH + TUESDAY_12_CH + WEDNESDAY_12_CH + THURSDAY_12_CH;
    UpToThursday();
    FridayLinked();
    ThursdayFriday();
    assert w[|w| - 1] == THURSDAY_12_CH[5];
    LinkedAppend(w, FRIDAY_12_CH, Follows);
  }

  lemma Schedule11Linked()
    ensures Linked(SCHEDULE_11_CH, Follows)
  {
  }

  /** A template slot names a known subject and falls on a school day, Monday to Friday. */
  predicate Scheduled(t: TimeSlot)
  {
    t.subjectId in SUBJECTS && t.day != Saturday && t.day != Sunday
  }

  lemma MondayScheduled() ensures forall t :: t in MONDAY_12_CH ==> Scheduled(t) {}
  lemma TuesdayScheduled() ensures forall t :: t in TUESDAY_12_CH ==> Scheduled(t) {}
  lemma WednesdayScheduled() ensures forall t :: t in WEDNESDAY_12_CH ==> Scheduled(t) {}
  lemma ThursdayScheduled() ensures forall t :: t in THURSDAY_12_CH ==> Scheduled(t) {}
  lemma FridayScheduled() ensures forall t :: t in FRIDAY_12_CH ==> Scheduled(t) {}

  /** What every timetable template satisfies. */
  predicate ValidTemplate(ts: seq<TimeSlot>)
  {
    && |ts| >= 2
    && Ordered(ts)
    && forall t :: t in ts ==> Scheduled(t)
  }

  /** Two lists of scheduled slots join into one. */
  lemma ScheduledJoin(a: seq<TimeSlot>, b: seq<TimeSlot>)
    requires forall t :: t in a ==> Scheduled(t)
    requires forall t :: t in b ==> Scheduled(t)
    ensures forall t :: t in a + b ==> Scheduled(t)
  {
  }

  /** Every 12-CH lesson names a known subject on a school day. */
  lemma Schedule12Scheduled()
    ensures forall t :: t in SCHEDULE_12_CH ==> Scheduled(t)
  {
    MondayScheduled();
    TuesdayScheduled();
    WednesdayScheduled();
    ThursdayScheduled();
    FridayScheduled();
    ScheduledJoin(MONDAY_12_CH, TUESDAY_12_CH);
    ScheduledJoin(MONDAY_12_CH + TUESDAY_12_CH, WEDNESDAY_12_CH);
    ScheduledJoin(MONDAY_12_CH + TUESDAY_12_CH + WEDNESDAY_12_CH, THURSDAY_12_CH);
    ScheduledJoin(MONDAY_12_CH + TUESDAY_12_CH + WEDNESDAY_12_CH + THURSDAY_12_CH, FRIDAY_12_CH);
  }

  lemma Template12Valid()
    ensures ValidTemplate(SCHEDULE_12_CH)
  {
    Schedule12Linked();
    LinkedOrdered(SCHEDULE_12_CH);
    Schedule12Scheduled();
  }

  lemma Template11Valid()
    ensures ValidTemplate(SCHEDULE_11_CH)
  {
    Schedule11Linked();
    LinkedOrdered(SCHEDULE_11_CH);
  }

  /** Both templates, and so whatever the lookup returns, are valid. */
  lemma TemplatesValid(classId: Option<string>)
    ensures ValidTemplate(ScheduleForClass(classId))
  {
    Template12Valid();
    Template11Valid();
  }

  /** In a valid template every slot is well formed, ids are unique and same-day slots never overlap. */
  lemma ValidTemplateFacts(ts: seq<TimeSlot>)
    requires ValidTemplate(ts)
    ensures forall i :: 0 <= i < |ts| ==> WellFormedSlot(ts[i])
    ensures forall i, j :: 0 <= i < |ts| && 0 <= j < |ts| && i != j ==> ts[i].id != ts[j].id
    ensures forall i, j :: 0 <= i < |ts| && 0 <= j < |ts| && i != j ==> Disjoint(ts[i], ts[j])
  {
    forall i | 0 <= i < |ts| ensures WellFormedSlot(ts[i]) {
      if i == 0 {
        assert Follows(ts[0], ts[1]);
      } else {
        assert Follows(ts[0], ts[i]);
      }
    }
    OrderedDistinctIds(ts);
    forall i, j | 0 <= i < |ts| && 0 <= j < |ts| && i != j ensures Disjoint(ts[i], ts[j]) {
      OrderedDisjoint(ts, i, j);
    }
  }
}
