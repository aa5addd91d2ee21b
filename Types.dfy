// The records of the planner's single application-state document, and the
// Option wrapper used wherever the source treats a value as possibly absent.

module Types {

  datatype Option<+T> = None | Some(value: T)

  /** A calendar date as a day number; consecutive dates differ by one. */
  type Day = int

  /** The index JavaScript's getDay gives: 0 = Sunday .. 6 = Saturday. */
  type WeekdayIndex = i: int | 0 <= i < 7

  /** The weekday enumeration; its values are the Portuguese day names. */
  datatype DayOfWeek = Monday | Tuesday | Wednesday | Thursday | Friday | Saturday | Sunday

  function DayLabel(d: DayOfWeek): string
  {
    match d
    case Monday => "Segunda-feira"
    case Tuesday => "Terça-feira"
    case Wednesday => "Quarta-feira"
    case Thursday => "Quinta-feira"
    case Friday => "Sexta-feira"
    case Saturday => "Sábado"
    case Sunday => "Domingo"
  }

  /** The position of a day in the week, Sunday first, as getDay numbers it. */
  function DayNumber(d: DayOfWeek): WeekdayIndex
  {
    match d
    case Sunday => 0
    case Monday => 1
    case Tuesday => 2
    case Wednesday => 3
    case Thursday => 4
    case Friday => 5
    case Saturday => 6
  }

  datatype Subject = Subject(id: string, name: string, shortName: string, color: string)

  /** A recurring weekly slot; startTime and endTime are "HH:mm" strings. */
  datatype TimeSlot = TimeSlot(id: string, day: DayOfWeek, startTime: string, endTime: string, subjectId: string)

  datatype TaskType = Homework | Exam | Project
  datatype Priority = Low | Medium | High

  datatype Task = Task(id: string, subjectId: string, title: string, dueDate: string,
                       isCompleted: bool, taskType: TaskType, priority: Priority)

  datatype Note = Note(id: string, subjectId: string, content: string, createdAt: string)

  datatype Grade = Grade(id: string, subjectId: string, name: string, value: real, createdAt: string)

  datatype AttendanceRecord = AttendanceRecord(subjectId: string, present: int, absent: int, maxAbsences: int)

  /** A date-scoped substitution of one slot's subject. */
  datatype ScheduleOverride = ScheduleOverride(date: Day, slotId: string, newSubjectId: string)

  /** A per-slot notification lead time. */
  datatype Reminder = Reminder(slotId: string, minutesBefore: int, active: bool)

  datatype Flashcard = Flashcard(id: string, front: string, back: string, subjectId: string)

  datatype EventType = Holiday | ExamDay | Other
  datatype SchoolEvent = SchoolEvent(id: string, title: string, date: string, eventType: EventType)

  datatype Question = Question(id: string, subjectId: string, text: string, isAnswered: bool)

  datatype Contact = Contact(id: string, name: string, role: string, phone: string)

  /** A value stored under one key of a subject's custom details. */
  datatype DetailValue = Text(text: string) | Flag(flag: bool)

  /** The whole persisted document. */
  datatype AppData = AppData(
    userName: Option<string>,
    tasks: seq<Task>,
    notes: seq<Note>,
    grades: seq<Grade>,
    attendance: map<string, AttendanceRecord>,
    customSubjectDetails: map<string, map<string, DetailValue>>,
    scheduleOverrides: seq<ScheduleOverride>,
    studyActivityDates: seq<Day>,
    reminders: seq<Reminder>,
    selectedClassId: Option<string>,
    flashcards: seq<Flashcard>,
    schoolEvents: seq<SchoolEvent>,
    questions: seq<Question>,
    contacts: seq<Contact>,
    scratchpadData: Option<string>)
}
