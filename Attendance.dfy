// The performance page: the per-subject absence counter with its floor at
// zero, each subject's remaining allowance and critical flag, the task
// counters and badges, and the attendance totals summed over every subject
// except the free period.

module Attendance {
  import opened Types
  import opened Lists
  import opened Constants
  import opened Dashboard

  function Max(a: int, b: int): int
  {
    if a >= b then a else b
  }

  // ---------------------------------------------------------------- absence counter

  /** The record a subject starts with when none is stored. */
  function DefaultRecord(subjectId: string): AttendanceRecord
  {
    AttendanceRecord(subjectId, 0, 0, DEFAULT_MAX_ABSENCES)
  }

  /** `data.attendance[subjectId] || { …default… }`. */
  function RecordFor(attendance: map<string, AttendanceRecord>, subjectId: string): (r: AttendanceRecord)
    ensures subjectId in attendance ==> r == attendance[subjectId]
    ensures subjectId !in attendance ==> r == AttendanceRecord(subjectId, 0, 0, 10)
  {
    if subjectId in attendance then attendance[subjectId] else DefaultRecord(subjectId)
  }

  /** `updateAttendance`: the subject's absences move by `change` but never below zero. */
  function UpdatedAttendance(attendance: map<string, AttendanceRecord>, subjectId: string, change: int): map<string, AttendanceRecord>
  {
    var current := RecordFor(attendance, subjectId);
    attendance[subjectId := current.(absent := Max(0, current.absent + change))]
  }

  /** Only the chosen subject's absences change, to max(0, absent + change); every other entry stays,
      and a subject without a record starts from no presences, no absences and the default limit. */
  lemma UpdatedAttendanceSpec(attendance: map<string, AttendanceRecord>, subjectId: string, change: int)
    ensures UpdatedAttendance(attendance, subjectId, change).Keys == attendance.Keys + {subjectId}
    ensures forall k :: k in attendance && k != subjectId ==> UpdatedAttendance(attendance, subjectId, change)[k] == attendance[k]
    ensures UpdatedAttendance(attendance, subjectId, change)[subjectId].absent >= 0
    ensures UpdatedAttendance(attendance, subjectId, change)[subjectId].absent == Max(0, RecordFor(attendance, subjectId).absent + change)
    ensures UpdatedAttendance(attendance, subjectId, change)[subjectId]
      == RecordFor(attendance, subjectId).(absent := UpdatedAttendance(attendance, subjectId, change)[subjectId].absent)
  {
  }

  /** One more absence and then one fewer restores a stored record; one fewer and then one more does too
      when there was at least one absence; one fewer at zero stays at zero. */
  lemma AbsenceRoundTrip(attendance: map<string, AttendanceRecord>, subjectId: string)
    requires subjectId in attendance
    ensures attendance[subjectId].absent >= 0 ==>
      UpdatedAttendance(UpdatedAttendance(attendance, subjectId, 1), subjectId, -1) == attendance
    ensures attendance[subjectId].absent >= 1 ==>
      UpdatedAttendance(UpdatedAttendance(attendance, subjectId, -1), subjectId, 1) == attendance
    ensures attendance[subjectId].absent == 0 ==>
      UpdatedAttendance(attendance, subjectId, -1) == attendance
  {
    var r := attendance[subjectId];
    if r.absent >= 0 {
      var once := UpdatedAttendance(attendance, subjectId, 1);
      assert once[subjectId] == r.(absent := r.absent + 1);
      assert UpdatedAttendance(once, subjectId, -1)[subjectId] == r;
    }
    if r.absent >= 1 {
      var once := UpdatedAttendance(attendance, subjectId, -1);
      assert once[subjectId] == r.(absent := r.absent - 1);
      assert UpdatedAttendance(once, subjectId, 1)[subjectId] == r;
    }
    if r.absent == 0 {
      assert r.(absent := 0) == r;
    }
  }

  // ---------------------------------------------------------------- per-subject figures

  /** `Math.max(0, record.maxAbsences - record.absent)`. */
  function Remaining(r: AttendanceRecord): int
  {
    Max(0, r.maxAbsences - r.absent)
  }

  /** `record.absent >= record.maxAbsences * 0.8`, in exact arithmetic. */
  predicate IsCritical(r: AttendanceRecord)
  {
    r.absent as real >= r.maxAbsences as real * 0.8
  }

  /** Critical means at least four fifths of the limit used: 5 · absent ≥ 4 · limit. */
  lemma IsCriticalSpec(r: AttendanceRecord)
    ensures IsCritical(r) <==> 5 * r.absent >= 4 * r.maxAbsences
  {
    assert (r.maxAbsences as real * 0.8) * 5.0 == (4 * r.maxAbsences) as real;
  }

  /** Nothing remains exactly when the limit is reached; below it, remaining and used add up to the limit;
      a subject with nothing remaining and a non-negative limit is critical. */
  lemma RemainingSpec(r: AttendanceRecord)
    ensures Remaining(r) >= 0
    ensures Remaining(r) == 0 <==> r.absent >= r.maxAbsences
    ensures r.absent <= r.maxAbsences ==> Remaining(r) + r.absent == r.maxAbsences
    ensures Remaining(r) == 0 && r.maxAbsences >= 0 ==> IsCritical(r)
  {
    IsCriticalSpec(r);
  }

  /** The default record: ten absences remain, and it is not critical. */
  lemma DefaultRecordFigures(subjectId: string)
    ensures Remaining(DefaultRecord(subjectId)) == 10 && !IsCritical(DefaultRecord(subjectId))
  {
    IsCriticalSpec(DefaultRecord(subjectId));
  }

  // ---------------------------------------------------------------- totals over subjects

  /** One bar of the attendance chart. */
  datatype ChartEntry = ChartEntry(id: string, name: string, fullName: string, absent: int, remaining: int,
                                   maxAbsences: int, isCritical: bool, color: string)

  function EntryFor(s: Subject, attendance: map<string, AttendanceRecord>): ChartEntry
  {
    var r := RecordFor(attendance, s.id);
    ChartEntry(s.id, s.shortName, s.name, r.absent, Remaining(r), r.maxAbsences, IsCritical(r), s.color)
  }

  function SumAbsent(subjects: seq<Subject>, attendance: map<string, AttendanceRecord>): int
    decreases |subjects|
  {
    if subjects == [] then 0
    else SumAbsent(subjects[..|subjects| - 1], attendance) + RecordFor(attendance, subjects[|subjects| - 1].id).absent
  }

  function SumMax(subjects: seq<Subject>, attendance: map<string, AttendanceRecord>): int
    decreases |subjects|
  {
    if subjects == [] then 0
    else SumMax(subjects[..|subjects| - 1], attendance) + RecordFor(attendance, subjects[|subjects| - 1].id).maxAbsences
  }

  /** The chart's `map` over the tracked subjects, accumulating the two totals as it goes. */
  method BuildChart(subjects: seq<Subject>, attendance: map<string, AttendanceRecord>)
    returns (entries: seq<ChartEntry>, totalAbsences: int, totalMaxAbsences: int)
    ensures |entries| == |subjects|
    ensures forall i :: 0 <= i < |subjects| ==> entries[i] == EntryFor(subjects[i], attendance)
    ensures totalAbsences == SumAbsent(subjects, attendance)
    ensures totalMaxAbsences == SumMax(subjects, attendance)
  {
    entries := [];
    totalAbsences := 0;
    totalMaxAbsences := 0;
    var i := 0;
    while i < |subjects|
      invariant 0 <= i <= |subjects| && |entries| == i
      invariant forall k :: 0 <= k < i ==> entries[k] == EntryFor(subjects[k], attendance)
      invariant totalAbsences == SumAbsent(subjects[..i], attendance)
      invariant totalMaxAbsences == SumMax(subjects[..i], attendance)
    {
      var s := subjects[i];
      var record := RecordFor(attendance, s.id);
      assert subjects[..i + 1][..i] == subjects[..i];
      totalAbsences := totalAbsences + record.absent;
      totalMaxAbsences := totalMaxAbsences + record.maxAbsences;
      entries := entries + [EntryFor(s, attendance)];
      i := i + 1;
    }
    assert subjects[..i] == subjects;
  }

  /** `Object.values(SUBJECTS)`. */
  function SubjectValues(): (r: seq<Subject>)
    ensures |r| == |SUBJECT_IDS|
    ensures forall i :: 0 <= i < |r| ==> SUBJECT_IDS[i] in SUBJECTS && r[i] == SUBJECTS[SUBJECT_IDS[i]]
  {
    assert forall i :: 0 <= i < |SUBJECT_IDS| ==> SUBJECT_IDS[i] in SUBJECTS;
    seq(|SUBJECT_IDS|, i requires 0 <= i < |SUBJECT_IDS| => SUBJECTS[SUBJECT_IDS[i]])
  }

  predicate Tracked(s: Subject)
  {
    s.id != "FREE"
  }

  /** The subjects the chart and the totals cover: all but the free period. */
  function TrackedSubjects(): (r: seq<Subject>)
    ensures forall s :: s in r <==> s in SubjectValues() && s.id != "FREE"
  {
    KeepSpec(SubjectValues(), s => Tracked(s));
    Keep(SubjectValues(), s => Tracked(s))
  }

  /** With no stored record for any tracked subject, nobody is absent and each subject adds the default limit. */
  lemma {:induction false} SumsWithoutRecords(subjects: seq<Subject>, attendance: map<string, AttendanceRecord>)
    requires forall i :: 0 <= i < |subjects| ==> subjects[i].id !in attendance
    ensures SumAbsent(subjects, attendance) == 0
    ensures SumMax(subjects, attendance) == DEFAULT_MAX_ABSENCES * |subjects|
    decreases |subjects|
  {
    if subjects != [] {
      var init := subjects[..|subjects| - 1];
      forall i | 0 <= i < |init| ensures init[i].id !in attendance {
        assert init[i] == subjects[i];
      }
      SumsWithoutRecords(init, attendance);
    }
  }

  /** With non-negative counts and absences within every limit, the totals stay within each other. */
  lemma {:induction false} SumsBounded(subjects: seq<Subject>, attendance: map<string, AttendanceRecord>)
    requires forall k :: k in attendance ==> 0 <= attendance[k].absent <= attendance[k].maxAbsences
    ensures 0 <= SumAbsent(subjects, attendance) <= SumMax(subjects, attendance)
    decreases |subjects|
  {
    if subjects != [] {
      SumsBounded(subjects[..|subjects| - 1], attendance);
    }
  }

  /** `Math.round(num / den * 100)` in exact arithmetic: the nearest integer, halves rounded up. */
  function RoundPercent(num: int, den: int): int
    requires den > 0
  {
    (200 * num + den) / (2 * den)
  }

  /** Euclidean division brackets its dividend. */
  lemma DivBracket(m: int, d: int)
    requires d > 0
    ensures d * (m / d) <= m < d * (m / d + 1)
  {
    assert m == d * (m / d) + m % d;
    assert d * (m / d + 1) == d * (m / d) + d;
  }

  /** A quotient bracketed by 0 and 101 multiples of the divisor lies in 0..100. */
  lemma QuotientRange(q: int, d: int, m: int)
    requires d > 0 && d * q <= m < d * (q + 1) && 0 <= m < d * 101
    ensures 0 <= q <= 100
  {
    if q < 0 {
      MulMonotone(d, q + 1, 0);
    }
    if q > 100 {
      MulMonotone(d, 101, q);
    }
  }

  /** Multiplying by a positive number keeps the order. */
  lemma MulMonotone(d: int, a: int, b: int)
    requires d > 0 && a <= b
    ensures d * a <= d * b
  {
    assert d * b - d * a == d * (b - a);
  }

  /** The only quotient that brackets the dividend is the quotient. */
  lemma QuotientUnique(m: int, d: int, q: int)
    requires d > 0 && d * q <= m < d * (q + 1)
    ensures m / d == q
  {
    var p := m / d;
    DivBracket(m, d);
    if p < q {
      MulMonotone(d, p + 1, q);
    } else if p > q {
      MulMonotone(d, q + 1, p);
    }
  }

  /** The rounded percentage is the nearest integer to 100 · num / den. */
  lemma RoundPercentSpec(num: int, den: int)
    requires den > 0
    ensures 2 * den * RoundPercent(num, den) <= 200 * num + den < 2 * den * (RoundPercent(num, den) + 1)
    ensures 0 <= num <= den ==> 0 <= RoundPercent(num, den) <= 100
    ensures RoundPercent(den, den) == 100 && RoundPercent(0, den) == 0
  {
    var q := RoundPercent(num, den);
    DivBracket(200 * num + den, 2 * den);
    if 0 <= num <= den {
      QuotientRange(q, 2 * den, 200 * num + den);
    }
    QuotientUnique(200 * den + den, 2 * den, 100);
    QuotientUnique(den, 2 * den, 0);
  }

  /** The global attendance rate; 100 when the summed limit is zero. */
  function GlobalRate(totalAbsences: int, totalMaxAbsences: int): (r: int)
    ensures totalMaxAbsences <= 0 ==> r == 100
    ensures totalMaxAbsences > 0 && totalAbsences == 0 ==> r == 100
    ensures totalMaxAbsences > 0 && 0 <= totalAbsences <= totalMaxAbsences ==> 0 <= r <= 100
  {
    if totalMaxAbsences > 0 then
      RoundPercentSpec(totalMaxAbsences - totalAbsences, totalMaxAbsences);
      RoundPercent(totalMaxAbsences - totalAbsences, totalMaxAbsences)
    else 100
  }

  /** With no attendance recorded at all, the global rate is 100. */
  lemma FreshRateIsFull(subjects: seq<Subject>)
    ensures GlobalRate(SumAbsent(subjects, map[]), SumMax(subjects, map[])) == 100
  {
    SumsWithoutRecords(subjects, map[]);
  }

  // ---------------------------------------------------------------- tasks and badges

  predicate Completed(t: Task)
  {
    t.isCompleted
  }

  function CompletedTest(): Task -> bool
  {
    t => Completed(t)
  }

  function CompletedCount(tasks: seq<Task>): nat
  {
    |Keep(tasks, CompletedTest())|
  }

  /** `totalTasks - completedTasks`. */
  function PendingTasks(tasks: seq<Task>): int
  {
    |tasks| - CompletedCount(tasks)
  }

  /** The pending count here is the dashboard's count of uncompleted tasks. */
  lemma PendingAgrees(tasks: seq<Task>)
    ensures PendingTasks(tasks) == PendingCount(tasks)
    ensures CompletedCount(tasks) <= |tasks|
  {
    KeepSplit(tasks, CompletedTest(), PendingTest());
  }

  /** 0 without tasks, otherwise the rounded share of completed tasks; 100 when all are done. */
  function CompletionRate(tasks: seq<Task>): (r: int)
    ensures |tasks| == 0 ==> r == 0
    ensures 0 <= r <= 100
    ensures |tasks| > 0 && CompletedCount(tasks) == |tasks| ==> r == 100
  {
    if |tasks| > 0 then
      PendingAgrees(tasks);
      RoundPercentSpec(CompletedCount(tasks), |tasks|);
      RoundPercent(CompletedCount(tasks), |tasks|)
    else 0
  }

  /** The completed counts at which the three badges unlock. */
  const BADGE_THRESHOLDS: seq<nat> := [1, 10, 50]

  /** Which badges are unlocked. */
  function Badges(completed: nat): (r: seq<bool>)
    ensures |r| == |BADGE_THRESHOLDS|
    ensures forall i :: 0 <= i < |r| ==> (r[i] <==> completed >= BADGE_THRESHOLDS[i])
  {
    [completed >= 1, completed >= 10, completed >= 50]
  }

  /** Completing more tasks never locks a badge. */
  lemma BadgesMonotone(c: nat, d: nat)
    requires c <= d
    ensures forall i :: 0 <= i < |Badges(c)| ==> Badges(c)[i] ==> Badges(d)[i]
  {
  }

  // ---------------------------------------------------------------- page state

  /** The page's initial document when nothing is stored. */
  function DefaultAttendanceData(): (d: AppData)
    ensures d.attendance == map[] && d.tasks == []
  {
    AppData(None, [], [], [], map[], map[], [], [], [], None, [], [], [], [], None)
  }

  class AttendanceView {
    var data: AppData
    var editingSubjectId: Option<string>

    constructor(stored: Option<AppData>)
      ensures data == (if stored.Some? then stored.value else DefaultAttendanceData()) && editingSubjectId == None
    {
      data := if stored.Some? then stored.value else DefaultAttendanceData();
      editingSubjectId := None;
    }

    method UpdateAttendance(subjectId: string, change: int)
      modifies this
      ensures data == old(data).(attendance := UpdatedAttendance(old(data).attendance, subjectId, change))
      ensures editingSubjectId == old(editingSubjectId)
    {
      var current := RecordFor(data.attendance, subjectId);
      var newAbsent := Max(0, current.absent + change);
      data := data.(attendance := data.attendance[subjectId := current.(absent := newAbsent)]);
    }

    method Edit(subjectId: Option<string>)
      modifies this
      ensures editingSubjectId == subjectId && data == old(data)
    {
      editingSubjectId := subjectId;
    }

    /** The chart entries and the global rate the page shows. */
    method Summary() returns (entries: seq<ChartEntry>, globalRate: int)
      ensures |entries| == |TrackedSubjects()|
      ensures forall i :: 0 <= i < |entries| ==> entries[i] == EntryFor(TrackedSubjects()[i], data.attendance)
      ensures globalRate == GlobalRate(SumAbsent(TrackedSubjects(), data.attendance), SumMax(TrackedSubjects(), data.attendance))
    {
      var totalAbsences, totalMaxAbsences;
      entries, totalAbsences, totalMaxAbsences := BuildChart(TrackedSubjects(), data.attendance);
      globalRate := GlobalRate(totalAbsences, totalMaxAbsences);
    }

    /** The record shown in the editing dialog. */
    function EditingRecord(): (r: Option<AttendanceRecord>)
      reads this
      ensures r.Some? <==> editingSubjectId.Some?
      ensures r.Some? ==> r.value == RecordFor(data.attendance, editingSubjectId.value)
    {
      if editingSubjectId.Some? then Some(RecordFor(data.attendance, editingSubjectId.value)) else None
    }
  }
}
