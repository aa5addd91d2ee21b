// The subjects page: notes, tasks and grades per subject, the per-subject
// details the student edits, and the study-activity log behind the streak.
// Every handler is a pure transformation of the stored data; the page object
// at the end applies them to its state together with the form fields.
// Identifiers (Date.now) and ISO timestamps are parameters.

module Subjects {
  import opened Types
  import opened Text
  import opened Clock
  import opened Lists
  import opened Utils
  import Dashboard

  datatype Tab = DetailsTab | NotesTab | TasksTab | GradesTab

  // ---------------------------------------------------------------- activity log

  /** logActivity: today is appended to the study dates unless it is there already. */
  function LoggedDates(dates: seq<Day>, today: Day): (r: seq<Day>)
    ensures today in r
    ensures forall d :: d in r <==> d in dates || d == today
    ensures dates <= r && |r| <= |dates| + 1
    ensures today in dates ==> r == dates
  {
    if today in dates then dates else dates + [today]
  }

  lemma LoggedDatesIdempotent(dates: seq<Day>, today: Day)
    ensures LoggedDates(LoggedDates(dates, today), today) == LoggedDates(dates, today)
  {
  }

  /** Once today is logged, and no logged date lies in the future, the streak is at least one day. */
  lemma LoggingStartsStreak(dates: seq<Day>, today: Day)
    requires forall d :: d in dates ==> d <= today
    ensures Streak(LoggedDates(dates, today), today) >= 1
  {
    var r := LoggedDates(dates, today);
    var sorted := DistinctDescending(r);
    DistinctDescendingSpec(r);
    assert today in sorted;
    HeadIsMax(sorted);
    assert sorted[0] in r;
    RunLengthSpec(sorted);
  }

  // ---------------------------------------------------------------- notes

  /** The stored note text: the clock time "HH:mm", a dash, then what the student wrote. */
  function NoteContent(now: Moment, text: string): (c: string)
    ensures |c| == |text| + 8
    ensures WellFormedTime(c[..5]) && MinuteOfDay(c[..5]) == now.second / 60
    ensures c[5..8] == " - " && c[8..] == text
  {
    ClockTime(now) + " - " + text
  }

  /** handleAddNote: nothing happens without a selected subject or with blank text. */
  function AddNote(data: AppData, subject: Option<Subject>, text: string, now: Moment, id: string, createdAt: string): (r: AppData)
    ensures subject.None? || IsBlank(text) ==> r == data
    ensures subject.Some? && !IsBlank(text) ==>
      |r.notes| == |data.notes| + 1 && r.notes[1..] == data.notes &&
      r.notes[0].id == id && r.notes[0].subjectId == subject.value.id && r.notes[0].createdAt == createdAt &&
      r.notes[0].content == NoteContent(now, text) &&
      r.studyActivityDates == LoggedDates(data.studyActivityDates, now.date) &&
      r == data.(notes := r.notes, studyActivityDates := r.studyActivityDates)
  {
    if subject.None? || IsBlank(text) then data
    else
      var note := Note(id, subject.value.id, NoteContent(now, text), createdAt);
      data.(notes := [note] + data.notes, studyActivityDates := LoggedDates(data.studyActivityDates, now.date))
  }

  predicate NoteOf(n: Note, subjectId: string) { n.subjectId == subjectId }

  function NoteOfTest(subjectId: string): Note -> bool
  {
    n => NoteOf(n, subjectId)
  }

  /** The new note heads its subject's list; every other subject's list is unchanged. */
  lemma AddNoteLists(data: AppData, subject: Subject, text: string, now: Moment, id: string, createdAt: string, other: string)
    requires !IsBlank(text) && other != subject.id
    ensures Keep(AddNote(data, Some(subject), text, now, id, createdAt).notes, NoteOfTest(subject.id)) ==
      [AddNote(data, Some(subject), text, now, id, createdAt).notes[0]] + Keep(data.notes, NoteOfTest(subject.id))
    ensures Keep(AddNote(data, Some(subject), text, now, id, createdAt).notes, NoteOfTest(other)) ==
      Keep(data.notes, NoteOfTest(other))
  {
    var r := AddNote(data, Some(subject), text, now, id, createdAt);
    assert r.notes[1..] == data.notes;
    assert NoteOfTest(subject.id)(r.notes[0]);
    assert !NoteOfTest(other)(r.notes[0]);
  }

  // ---------------------------------------------------------------- tasks

  /**
   * handleAddTask: a new homework task, not completed. Nothing happens for a
   * blank title, nor when the due date is None: `new Date(taskDueDate)` is then
   * an invalid date and `toISOString()` throws before anything is stored.
   */
  function AddTask(data: AppData, subject: Option<Subject>, title: string, dueDate: Option<string>, priority: Priority, now: Moment, id: string): (r: AppData)
    ensures subject.None? || IsBlank(title) || dueDate.None? ==> r == data
    ensures subject.Some? && !IsBlank(title) && dueDate.Some? ==>
      |r.tasks| == |data.tasks| + 1 && r.tasks[1..] == data.tasks &&
      r.tasks[0] == Task(id, subject.value.id, title, dueDate.value, false, Homework, priority) &&
      r.studyActivityDates == LoggedDates(data.studyActivityDates, now.date) &&
      r == data.(tasks := r.tasks, studyActivityDates := r.studyActivityDates)
  {
    if subject.None? || IsBlank(title) || dueDate.None? then data
    else
      var task := Task(id, subject.value.id, title, dueDate.value, false, Homework, priority);
      data.(tasks := [task] + data.tasks, studyActivityDates := LoggedDates(data.studyActivityDates, now.date))
  }

  /** A task added here is one more pending task on the dashboard; a refused one changes no count. */
  lemma AddTaskPending(data: AppData, subject: Subject, title: string, dueDate: Option<string>, priority: Priority, now: Moment, id: string)
    ensures Dashboard.PendingCount(AddTask(data, Some(subject), title, dueDate, priority, now, id).tasks) ==
      Dashboard.PendingCount(data.tasks) + (if !IsBlank(title) && dueDate.Some? then 1 else 0)
  {
    var r := AddTask(data, Some(subject), title, dueDate, priority, now, id);
    if !IsBlank(title) && dueDate.Some? {
      assert r.tasks[1..] == data.tasks;
      assert Dashboard.PendingTest()(r.tasks[0]);
    }
  }

  /** The task with that id flips between done and not done; all others stay. */
  function Toggled(t: Task, taskId: string): (r: Task)
    ensures r.isCompleted == (if t.id == taskId then !t.isCompleted else t.isCompleted)
    ensures r.(isCompleted := t.isCompleted) == t
  {
    if t.id == taskId then t.(isCompleted := !t.isCompleted) else t
  }

  /** The task list after toggleTask. */
  function ToggleTasks(tasks: seq<Task>, taskId: string): (r: seq<Task>)
    ensures |r| == |tasks|
    ensures forall i :: 0 <= i < |r| ==> r[i] == Toggled(tasks[i], taskId)
  {
    seq(|tasks|, i requires 0 <= i < |tasks| => Toggled(tasks[i], taskId))
  }

  /** Toggling twice restores the list. */
  lemma ToggleInvolution(tasks: seq<Task>, taskId: string)
    ensures ToggleTasks(ToggleTasks(tasks, taskId), taskId) == tasks
  {
    var r := ToggleTasks(ToggleTasks(tasks, taskId), taskId);
    assert forall i :: 0 <= i < |r| ==> r[i] == tasks[i];
  }

  /** An id no task carries changes nothing. */
  lemma ToggleMissing(tasks: seq<Task>, taskId: string)
    requires forall i :: 0 <= i < |tasks| ==> tasks[i].id != taskId
    ensures ToggleTasks(tasks, taskId) == tasks
  {
  }

  predicate PendingWithId(t: Task, taskId: string) { t.id == taskId && !t.isCompleted }

  predicate CompletedWithId(t: Task, taskId: string) { t.id == taskId && t.isCompleted }

  function PendingWithIdTest(taskId: string): Task -> bool
  {
    t => PendingWithId(t, taskId)
  }

  function CompletedWithIdTest(taskId: string): Task -> bool
  {
    t => CompletedWithId(t, taskId)
  }

  /** The dashboard's pending count gains the completed tasks toggled and loses the pending ones. */
  lemma {:induction false} TogglePendingCount(tasks: seq<Task>, taskId: string)
    ensures Dashboard.PendingCount(ToggleTasks(tasks, taskId)) + |Keep(tasks, PendingWithIdTest(taskId))| ==
      Dashboard.PendingCount(tasks) + |Keep(tasks, CompletedWithIdTest(taskId))|
    decreases |tasks|
  {
    if tasks != [] {
      var r := ToggleTasks(tasks, taskId);
      assert r[1..] == ToggleTasks(tasks[1..], taskId);
      TogglePendingCount(tasks[1..], taskId);
    }
  }

  /** toggleTask also logs study activity. */
  function ToggleTask(data: AppData, taskId: string, today: Day): (r: AppData)
    ensures r.tasks == ToggleTasks(data.tasks, taskId)
    ensures r.studyActivityDates == LoggedDates(data.studyActivityDates, today)
    ensures r == data.(tasks := r.tasks, studyActivityDates := r.studyActivityDates)
  {
    data.(tasks := ToggleTasks(data.tasks, taskId), studyActivityDates := LoggedDates(data.studyActivityDates, today))
  }

  function TaskId(): Task -> string
  {
    (t: Task) => t.id
  }

  // ---------------------------------------------------------------- grades

  /** Portuguese marks run from 0 to 20. */
  predicate ValidGrade(v: real) { 0.0 <= v <= 20.0 }

  datatype GradeOutcome = Ignored | OutOfRange | Added

  datatype GradeResult = GradeResult(data: AppData, outcome: GradeOutcome)

  /**
   * handleAddGrade; the value is None while the field is empty. A value
   * outside 0..20 raises the alert and stores nothing.
   */
  function AddGrade(data: AppData, subject: Option<Subject>, name: string, value: Option<real>, now: Moment, id: string, createdAt: string): (r: GradeResult)
    ensures r.outcome == Ignored <==> subject.None? || IsBlank(name) || value.None?
    ensures r.outcome == OutOfRange <==> subject.Some? && !IsBlank(name) && value.Some? && !ValidGrade(value.value)
    ensures r.outcome == Added <==> subject.Some? && !IsBlank(name) && value.Some? && ValidGrade(value.value)
    ensures r.outcome != Added ==> r.data == data
    ensures r.outcome == Added ==>
      r.data.grades == [Grade(id, subject.value.id, name, value.value, createdAt)] + data.grades &&
      r.data.studyActivityDates == LoggedDates(data.studyActivityDates, now.date) &&
      r.data == data.(grades := r.data.grades, studyActivityDates := r.data.studyActivityDates)
  {
    if subject.None? || IsBlank(name) || value.None? then GradeResult(data, Ignored)
    else if !ValidGrade(value.value) then GradeResult(data, OutOfRange)
    else
      var grade := Grade(id, subject.value.id, name, value.value, createdAt);
      GradeResult(data.(grades := [grade] + data.grades, studyActivityDates := LoggedDates(data.studyActivityDates, now.date)), Added)
  }

  predicate GradesValid(grades: seq<Grade>)
  {
    forall i :: 0 <= i < |grades| ==> ValidGrade(grades[i].value)
  }

  /** Every stored mark stays within 0..20 across additions. */
  lemma AddGradeKeepsValid(data: AppData, subject: Option<Subject>, name: string, value: Option<real>, now: Moment, id: string, createdAt: string)
    requires GradesValid(data.grades)
    ensures GradesValid(AddGrade(data, subject, name, value, now, id, createdAt).data.grades)
  {
    var r := AddGrade(data, subject, name, value, now, id, createdAt);
    if r.outcome == Added {
      assert forall i :: 1 <= i < |r.data.grades| ==> r.data.grades[i] == data.grades[i - 1];
    }
  }

  function GradeId(): Grade -> string
  {
    (g: Grade) => g.id
  }

  /** deleteGrade leaves every remaining mark within 0..20. */
  lemma DeleteGradeKeepsValid(grades: seq<Grade>, gradeId: string)
    requires GradesValid(grades)
    ensures GradesValid(WithoutId(grades, gradeId, GradeId()))
  {
    var r := WithoutId(grades, gradeId, GradeId());
    forall i | 0 <= i < |r|
      ensures ValidGrade(r[i].value)
    {
      assert r[i] in grades;
    }
  }

  predicate GradeOf(g: Grade, subjectId: string) { g.subjectId == subjectId }

  function GradeOfTest(subjectId: string): Grade -> bool
  {
    g => GradeOf(g, subjectId)
  }

  function GradeSum(grades: seq<Grade>): real
  {
    if grades == [] then 0.0 else GradeSum(grades[..|grades| - 1]) + grades[|grades| - 1].value
  }

  /** The average the grades tab shows, as an exact real; none without grades. */
  function Average(grades: seq<Grade>): Option<real>
  {
    if grades == [] then None else Some(GradeSum(grades) / (|grades| as real))
  }

  lemma {:induction false} GradeSumBounds(grades: seq<Grade>)
    requires GradesValid(grades)
    ensures 0.0 <= GradeSum(grades) <= 20.0 * (|grades| as real)
    decreases |grades|
  {
    if grades != [] {
      GradeSumBounds(grades[..|grades| - 1]);
    }
  }

  /** The average of valid marks is itself a mark. */
  lemma AverageBounds(grades: seq<Grade>)
    requires GradesValid(grades)
    ensures Average(grades).Some? <==> |grades| > 0
    ensures Average(grades).Some? ==> ValidGrade(Average(grades).value)
  {
    if grades != [] {
      GradeSumBounds(grades);
      var n := |grades| as real;
      var s := GradeSum(grades);
      assert s / n * n == s;
    }
  }

  /** The average of one subject's grades, as the grades tab computes it. */
  lemma SubjectAverageBounds(grades: seq<Grade>, subjectId: string)
    requires GradesValid(grades)
    ensures Average(Keep(grades, GradeOfTest(subjectId))).Some? ==> ValidGrade(Average(Keep(grades, GradeOfTest(subjectId))).value)
  {
    var s := Keep(grades, GradeOfTest(subjectId));
    KeepSpec(grades, GradeOfTest(subjectId));
    forall i | 0 <= i < |s|
      ensures ValidGrade(s[i].value)
    {
      assert s[i] in grades;
    }
    AverageBounds(s);
  }

  // ---------------------------------------------------------------- subject details

  /** updateSubjectDetail: one key of one subject's custom details is set. */
  function UpdatedDetails(details: map<string, map<string, DetailValue>>, subjectId: string, key: string, value: DetailValue): (r: map<string, map<string, DetailValue>>)
    ensures r.Keys == details.Keys + {subjectId}
    ensures r[subjectId].Keys == (if subjectId in details then details[subjectId].Keys else {}) + {key}
    ensures r[subjectId][key] == value
    ensures forall k :: k in r[subjectId] && k != key ==> r[subjectId][k] == details[subjectId][k]
    ensures forall s :: s in details && s != subjectId ==> r[s] == details[s]
  {
    var existing := if subjectId in details then details[subjectId] else map[];
    details[subjectId := existing[key := value]]
  }

  /** The page does nothing without a selected subject. */
  function UpdateSubjectDetail(data: AppData, subject: Option<Subject>, key: string, value: DetailValue): (r: AppData)
    ensures subject.None? ==> r == data
    ensures subject.Some? ==> r == data.(customSubjectDetails := UpdatedDetails(data.customSubjectDetails, subject.value.id, key, value))
  {
    if subject.None? then data
    else data.(customSubjectDetails := UpdatedDetails(data.customSubjectDetails, subject.value.id, key, value))
  }

  const PRIORITY_KEY := "isPriority"

  /** JavaScript truthiness of a stored detail. */
  predicate Truthy(v: DetailValue)
  {
    if v.Flag? then v.flag else v.text != ""
  }

  /** mergedSubject.isPriority: a truthy stored value; a subject has none of its own. */
  predicate IsPriority(details: map<string, map<string, DetailValue>>, subjectId: string)
  {
    subjectId in details && PRIORITY_KEY in details[subjectId] && Truthy(details[subjectId][PRIORITY_KEY])
  }

  /** The priority button stores the negation of the merged flag. */
  function TogglePriority(details: map<string, map<string, DetailValue>>, subjectId: string): map<string, map<string, DetailValue>>
  {
    UpdatedDetails(details, subjectId, PRIORITY_KEY, Flag(!IsPriority(details, subjectId)))
  }

  /** The button flips the flag of that subject, leaves other subjects alone, and twice restores the flag. */
  lemma TogglePrioritySpec(details: map<string, map<string, DetailValue>>, subjectId: string, other: string)
    requires other != subjectId
    ensures IsPriority(TogglePriority(details, subjectId), subjectId) <==> !IsPriority(details, subjectId)
    ensures IsPriority(TogglePriority(details, subjectId), other) <==> IsPriority(details, other)
    ensures IsPriority(TogglePriority(TogglePriority(details, subjectId), subjectId), subjectId) <==> IsPriority(details, subjectId)
  {
  }

  // ---------------------------------------------------------------- page

  /** The page's own fallback when nothing is stored: empty lists and class 12-CH. */
  function DefaultSubjectsData(): (d: AppData)
    ensures d.selectedClassId == Some("12-CH") && d.tasks == [] && d.notes == [] && d.studyActivityDates == []
  {
    AppData(None, [], [], [], map[], map[], [], [], [], Some("12-CH"), [], [], [], [], None)
  }

  /** The page's form state besides the selected subject: the open tab and the three forms. */
  datatype SubjectsForm = SubjectsForm(
    activeTab: Tab,
    noteContent: string,
    taskTitle: string, taskDueDate: string, taskPriority: Priority,
    gradeName: string, gradeValue: Option<real>)

  /** The forms as the page first shows them; `today` is the ISO date the due-date field starts with. */
  function InitialForm(today: string): SubjectsForm
  {
    SubjectsForm(DetailsTab, "", "", today, Medium, "", None)
  }

  class SubjectsView {
    var data: AppData
    var selectedSubject: Option<Subject>
    var activeTab: Tab
    var noteContent: string
    var taskTitle: string
    var taskDueDate: string
    var taskPriority: Priority
    var gradeName: string
    var gradeValue: Option<real>

    function Form(): SubjectsForm
      reads this
    {
      SubjectsForm(activeTab, noteContent, taskTitle, taskDueDate, taskPriority, gradeName, gradeValue)
    }

    constructor(stored: Option<AppData>, today: string)
      ensures data == (if stored.Some? then stored.value else DefaultSubjectsData())
      ensures selectedSubject == None && Form() == InitialForm(today)
    {
      data := if stored.Some? then stored.value else DefaultSubjectsData();
      selectedSubject := None;
      activeTab := DetailsTab;
      noteContent := "";
      taskTitle := "";
      taskDueDate := today;
      taskPriority := Medium;
      gradeName := "";
      gradeValue := None;
    }

    /** Choosing a subject, or going back to the list with None; the tab and forms stay as they were. */
    method SelectSubject(subject: Option<Subject>)
      modifies this
      ensures selectedSubject == subject && data == old(data) && Form() == old(Form())
    {
      selectedSubject := subject;
    }

    method SelectTab(tab: Tab)
      modifies this
      ensures data == old(data) && selectedSubject == old(selectedSubject)
      ensures Form() == old(Form()).(activeTab := tab)
    {
      activeTab := tab;
    }

    /** handleAddNote; on success the text is cleared and the notes tab opens. */
    method HandleAddNote(now: Moment, id: string, createdAt: string)
      modifies this
      ensures data == AddNote(old(data), old(selectedSubject), old(noteContent), now, id, createdAt)
      ensures selectedSubject == old(selectedSubject)
      ensures Form() == if old(selectedSubject).None? || IsBlank(old(noteContent)) then old(Form())
        else old(Form()).(noteContent := "", activeTab := NotesTab)
    {
      if selectedSubject.None? || IsBlank(noteContent) {
        return;
      }
      data := AddNote(data, selectedSubject, noteContent, now, id, createdAt);
      noteContent := "";
      activeTab := NotesTab;
    }

    /**
     * handleAddTask; `dueDate` is `new Date(taskDueDate).toISOString()`, None
     * when that throws, as it does for a cleared field; `today` is the ISO date
     * the field is reset to.
     */
    method HandleAddTask(now: Moment, id: string, dueDate: Option<string>, today: string)
      requires taskDueDate == "" ==> dueDate.None?
      modifies this
      ensures data == AddTask(old(data), old(selectedSubject), old(taskTitle), dueDate, old(taskPriority), now, id)
      ensures selectedSubject == old(selectedSubject)
      ensures Form() == if old(selectedSubject).None? || IsBlank(old(taskTitle)) || dueDate.None? then old(Form())
        else old(Form()).(taskTitle := "", taskPriority := Medium, taskDueDate := today, activeTab := TasksTab)
    {
      if selectedSubject.None? || IsBlank(taskTitle) || dueDate.None? {
        return;
      }
      data := AddTask(data, selectedSubject, taskTitle, dueDate, taskPriority, now, id);
      taskTitle := "";
      taskPriority := Medium;
      taskDueDate := today;
      activeTab := TasksTab;
    }

    /** handleAddGrade; the form is cleared only when the grade is stored. */
    method HandleAddGrade(now: Moment, id: string, createdAt: string) returns (outcome: GradeOutcome)
      modifies this
      ensures outcome == AddGrade(old(data), old(selectedSubject), old(gradeName), old(gradeValue), now, id, createdAt).outcome
      ensures data == AddGrade(old(data), old(selectedSubject), old(gradeName), old(gradeValue), now, id, createdAt).data
      ensures selectedSubject == old(selectedSubject)
      ensures Form() == if outcome == Added then old(Form()).(gradeName := "", gradeValue := None) else old(Form())
    {
      var r := AddGrade(data, selectedSubject, gradeName, gradeValue, now, id, createdAt);
      outcome := r.outcome;
      data := r.data;
      if outcome == Added {
        gradeName := "";
        gradeValue := None;
      }
    }

    method HandleDeleteGrade(gradeId: string)
      modifies this
      ensures data == old(data).(grades := WithoutId(old(data).grades, gradeId, GradeId()))
      ensures selectedSubject == old(selectedSubject) && Form() == old(Form())
    {
      data := data.(grades := WithoutId(data.grades, gradeId, GradeId()));
    }

    method HandleToggleTask(taskId: string, today: Day)
      modifies this
      ensures data == ToggleTask(old(data), taskId, today)
      ensures selectedSubject == old(selectedSubject) && Form() == old(Form())
    {
      data := ToggleTask(data, taskId, today);
    }

    method HandleDeleteTask(taskId: string)
      modifies this
      ensures data == old(data).(tasks := WithoutId(old(data).tasks, taskId, TaskId()))
      ensures selectedSubject == old(selectedSubject) && Form() == old(Form())
    {
      data := data.(tasks := WithoutId(data.tasks, taskId, TaskId()));
    }

    method HandleUpdateSubjectDetail(key: string, value: DetailValue)
      modifies this
      ensures data == UpdateSubjectDetail(old(data), old(selectedSubject), key, value)
      ensures selectedSubject == old(selectedSubject) && Form() == old(Form())
    {
      data := UpdateSubjectDetail(data, selectedSubject, key, value);
    }

    /** The selected subject's notes: every stored note of that subject, each as often as stored, in stored order. */
    function SubjectNotes(): (r: seq<Note>)
      reads this
      ensures selectedSubject.Some? ==> forall i :: 0 <= i < |r| ==> r[i].subjectId == selectedSubject.value.id
      ensures selectedSubject.Some? ==> forall n :: n in r <==> n in data.notes && n.subjectId == selectedSubject.value.id
      ensures selectedSubject.Some? ==>
        forall n :: multiset(r)[n] == if n.subjectId == selectedSubject.value.id then multiset(data.notes)[n] else 0
      ensures Subsequence(r, data.notes)
      ensures selectedSubject.None? ==> r == []
    {
      if selectedSubject.None? then []
      else
        var p := NoteOfTest(selectedSubject.value.id);
        KeepPasses(data.notes, p);
        KeepSpec(data.notes, p);
        Keep(data.notes, p)
    }
  }
}
