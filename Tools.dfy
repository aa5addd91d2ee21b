// The tools page: flashcards, the scratchpad, questions for the teacher,
// the school calendar and the class contacts. Loading fills in empty tool
// collections for fields an older saved document lacks; every handler is a
// pure transformation of one list. Identifiers (Date.now) are parameters.

module Tools {
  import opened Types
  import opened Text
  import opened Lists

  // ---------------------------------------------------------------- loading

  /** The tool fields of a saved document, None where the document has no such field. */
  datatype ToolFields = ToolFields(
    flashcards: Option<seq<Flashcard>>,
    schoolEvents: Option<seq<SchoolEvent>>,
    questions: Option<seq<Question>>,
    contacts: Option<seq<Contact>>,
    scratchpadData: Option<string>)

  /** What local storage holds: nothing, or a document whose other fields are `rest`. */
  datatype ToolsStored = NothingSaved | SavedDocument(rest: AppData, tools: ToolFields)

  /** The fields of `{}` that the page never reads. */
  function EmptyData(): AppData
  {
    AppData(None, [], [], [], map[], map[], [], [], [], None, [], [], [], [], None)
  }

  function OrElse<T>(o: Option<T>, d: T): T
  {
    if o.Some? then o.value else d
  }

  /** The defaults spread first, the saved document over them. */
  function LoadTools(stored: ToolsStored): (d: AppData)
    ensures stored.NothingSaved? ==>
      d.flashcards == [] && d.schoolEvents == [] && d.questions == [] && d.contacts == [] && d.scratchpadData == Some("")
    ensures stored.SavedDocument? ==>
      d == stored.rest.(flashcards := d.flashcards, schoolEvents := d.schoolEvents, questions := d.questions,
                        contacts := d.contacts, scratchpadData := d.scratchpadData)
    ensures stored.SavedDocument? ==>
      d.flashcards == OrElse(stored.tools.flashcards, []) &&
      d.schoolEvents == OrElse(stored.tools.schoolEvents, []) &&
      d.questions == OrElse(stored.tools.questions, []) &&
      d.contacts == OrElse(stored.tools.contacts, []) &&
      d.scratchpadData == Some(OrElse(stored.tools.scratchpadData, ""))
  {
    var base := if stored.SavedDocument? then stored.rest else EmptyData();
    var t := if stored.SavedDocument? then stored.tools else ToolFields(None, None, None, None, None);
    base.(flashcards := OrElse(t.flashcards, []), schoolEvents := OrElse(t.schoolEvents, []),
          questions := OrElse(t.questions, []), contacts := OrElse(t.contacts, []),
          scratchpadData := Some(OrElse(t.scratchpadData, "")))
  }

  /** The tool fields the page writes back, as they are saved. */
  function SavedTools(data: AppData): ToolFields
  {
    ToolFields(Some(data.flashcards), Some(data.schoolEvents), Some(data.questions), Some(data.contacts), data.scratchpadData)
  }

  /** Saving and loading again gives the same data: stored fields take precedence over the defaults. */
  lemma LoadSavedRoundTrip(data: AppData)
    requires data.scratchpadData.Some?
    ensures LoadTools(SavedDocument(data, SavedTools(data))) == data
  {
  }

  // ---------------------------------------------------------------- flashcards

  /** addCard: an empty front or back adds nothing; new cards go first, filed under 'GEN'. */
  function AddCard(cards: seq<Flashcard>, front: string, back: string, id: string): (r: seq<Flashcard>)
    ensures front == "" || back == "" ==> r == cards
    ensures front != "" && back != "" ==>
      |r| == |cards| + 1 && r[0] == Flashcard(id, front, back, "GEN") && r[1..] == cards
  {
    if front == "" || back == "" then cards else [Flashcard(id, front, back, "GEN")] + cards
  }

  function CardId(): Flashcard -> string
  {
    (c: Flashcard) => c.id
  }

  /** A click on a card shows its back, a second click hides it again; at most one card is turned. */
  function Flip(flipped: Option<string>, cardId: string): (r: Option<string>)
    ensures r == Some(cardId) <==> flipped != Some(cardId)
    ensures r.Some? ==> r.value == cardId
  {
    if flipped == Some(cardId) then None else Some(cardId)
  }

  lemma FlipTwice(flipped: Option<string>, cardId: string)
    requires flipped != Some(cardId)
    ensures Flip(Flip(flipped, cardId), cardId) == None
  {
  }

  // ---------------------------------------------------------------- questions

  /** addQuestion: blank text adds nothing; a new question is unanswered and goes first. */
  function AddQuestion(questions: seq<Question>, text: string, id: string): (r: seq<Question>)
    ensures IsBlank(text) ==> r == questions
    ensures !IsBlank(text) ==>
      |r| == |questions| + 1 && r[0] == Question(id, "GEN", text, false) && r[1..] == questions
  {
    if IsBlank(text) then questions else [Question(id, "GEN", text, false)] + questions
  }

  function Toggled(q: Question, id: string): (r: Question)
    ensures r.isAnswered == (if q.id == id then !q.isAnswered else q.isAnswered)
    ensures r.(isAnswered := q.isAnswered) == q
  {
    if q.id == id then q.(isAnswered := !q.isAnswered) else q
  }

  /** toggleAnswered: the questions with that id flip between answered and open. */
  function ToggleAnswered(questions: seq<Question>, id: string): (r: seq<Question>)
    ensures |r| == |questions|
    ensures forall i :: 0 <= i < |r| ==> r[i] == Toggled(questions[i], id)
  {
    seq(|questions|, i requires 0 <= i < |questions| => Toggled(questions[i], id))
  }

  /** Toggling twice restores the list. */
  lemma ToggleAnsweredInvolution(questions: seq<Question>, id: string)
    ensures ToggleAnswered(ToggleAnswered(questions, id), id) == questions
  {
    var r := ToggleAnswered(ToggleAnswered(questions, id), id);
    assert forall i :: 0 <= i < |r| ==> r[i] == questions[i];
  }

  /** Only the matching question changes, and only in its answered flag. */
  lemma ToggleAnsweredOthers(questions: seq<Question>, id: string, i: int)
    requires 0 <= i < |questions|
    ensures questions[i].id != id ==> ToggleAnswered(questions, id)[i] == questions[i]
    ensures questions[i].id == id ==> ToggleAnswered(questions, id)[i].isAnswered != questions[i].isAnswered
  {
  }

  function QuestionId(): Question -> string
  {
    (q: Question) => q.id
  }

  // ---------------------------------------------------------------- events

  function EventDate(): SchoolEvent -> string
  {
    (e: SchoolEvent) => e.date
  }

  function EventId(): SchoolEvent -> string
  {
    (e: SchoolEvent) => e.id
  }

  /** addEvent: a missing title or date adds nothing; otherwise the list is re-sorted by date. */
  function AddEvent(events: seq<SchoolEvent>, title: string, date: string, id: string): (r: seq<SchoolEvent>)
    ensures title == "" || date == "" ==> r == events
    ensures title != "" && date != "" ==>
      SortedBy(r, EventDate()) &&
      multiset(r) == multiset(events) + multiset{SchoolEvent(id, title, date, Other)} &&
      |r| == |events| + 1
  {
    if title == "" || date == "" then events
    else
      var all := events + [SchoolEvent(id, title, date, Other)];
      SortBySpec(all, EventDate());
      SortBy(all, EventDate())
  }

  /** The calendar stays in date order through additions and removals. */
  lemma EventsStaySorted(events: seq<SchoolEvent>, title: string, date: string, id: string, removed: string)
    requires SortedBy(events, EventDate())
    ensures SortedBy(AddEvent(events, title, date, id), EventDate())
    ensures SortedBy(WithoutId(events, removed, EventId()), EventDate())
  {
    KeepSorted(events, OtherIdTest(removed, EventId()), EventDate());
  }

  /** The new event is in the calendar, and so is every earlier one. */
  lemma AddEventContents(events: seq<SchoolEvent>, title: string, date: string, id: string)
    requires title != "" && date != ""
    ensures SchoolEvent(id, title, date, Other) in AddEvent(events, title, date, id)
    ensures forall i :: 0 <= i < |events| ==> events[i] in AddEvent(events, title, date, id)
  {
    var r := AddEvent(events, title, date, id);
    assert SchoolEvent(id, title, date, Other) in multiset(r);
    forall i | 0 <= i < |events|
      ensures events[i] in r
    {
      assert events[i] in multiset(events);
      assert events[i] in multiset(r);
    }
  }

  // ---------------------------------------------------------------- contacts

  const DEFAULT_ROLE := "Estudante"

  /** addContact: a missing name or phone adds nothing; an empty role becomes 'Estudante'. */
  function AddContact(contacts: seq<Contact>, name: string, phone: string, role: string, id: string): (r: seq<Contact>)
    ensures name == "" || phone == "" ==> r == contacts
    ensures name != "" && phone != "" ==>
      |r| == |contacts| + 1 && r[1..] == contacts &&
      r[0].id == id && r[0].name == name && r[0].phone == phone &&
      r[0].role != "" && (role != "" ==> r[0].role == role) && (role == "" ==> r[0].role == DEFAULT_ROLE)
  {
    if name == "" || phone == "" then contacts
    else [Contact(id, name, if role == "" then DEFAULT_ROLE else role, phone)] + contacts
  }

  function ContactId(): Contact -> string
  {
    (c: Contact) => c.id
  }

  // ---------------------------------------------------------------- page

  datatype Tool = FlashcardsTool | ScratchpadTool | QuestionsTool | FormulasTool | EventsTool | ContactsTool

  /**
   * The local state of the tool components: the flashcard form and the turned
   * card, the question text, the event form and the contact form. Each tool is
   * its own component, mounted only while that tool is open.
   */
  datatype ToolForms = ToolForms(
    front: string, back: string, flippedCardId: Option<string>,
    questionText: string,
    eventTitle: string, eventDate: string,
    contactName: string, contactPhone: string, contactRole: string)

  /** Every tool component starts with empty fields and no card turned. */
  const EMPTY_FORMS := ToolForms("", "", None, "", "", "", "", "", "")

  /** The page with every tool's form; each tool's handlers touch only its own list and form. */
  class ToolsView {
    var data: AppData
    var activeTool: Option<Tool>
    var front: string
    var back: string
    var flippedCardId: Option<string>
    var questionText: string
    var eventTitle: string
    var eventDate: string
    var contactName: string
    var contactPhone: string
    var contactRole: string

    function Forms(): ToolForms
      reads this
    {
      ToolForms(front, back, flippedCardId, questionText, eventTitle, eventDate, contactName, contactPhone, contactRole)
    }

    constructor(stored: ToolsStored)
      ensures data == LoadTools(stored) && activeTool == None && Forms() == EMPTY_FORMS
    {
      data := LoadTools(stored);
      activeTool := None;
      front, back, flippedCardId := "", "", None;
      questionText := "";
      eventTitle, eventDate := "", "";
      contactName, contactPhone, contactRole := "", "", "";
    }

    /**
     * Opening a tool from the grid, or going back with None. Either way the
     * tool component shown before unmounts and the one shown after mounts
     * afresh, so every form starts empty again.
     */
    method OpenTool(tool: Option<Tool>)
      modifies this
      ensures activeTool == tool && data == old(data) && Forms() == EMPTY_FORMS
    {
      activeTool := tool;
      front, back, flippedCardId := "", "", None;
      questionText := "";
      eventTitle, eventDate := "", "";
      contactName, contactPhone, contactRole := "", "", "";
    }

    method HandleAddCard(id: string)
      modifies this
      ensures data == old(data).(flashcards := AddCard(old(data).flashcards, old(front), old(back), id))
      ensures activeTool == old(activeTool)
      ensures Forms() == if old(front) == "" || old(back) == "" then old(Forms()) else old(Forms()).(front := "", back := "")
    {
      if front == "" || back == "" {
        return;
      }
      data := data.(flashcards := AddCard(data.flashcards, front, back, id));
      front, back := "", "";
    }

    method HandleDeleteCard(id: string)
      modifies this
      ensures data == old(data).(flashcards := WithoutId(old(data).flashcards, id, CardId()))
      ensures activeTool == old(activeTool) && Forms() == old(Forms())
    {
      data := data.(flashcards := WithoutId(data.flashcards, id, CardId()));
    }

    method HandleFlip(id: string)
      modifies this
      ensures data == old(data) && activeTool == old(activeTool)
      ensures Forms() == old(Forms()).(flippedCardId := Flip(old(flippedCardId), id))
    {
      flippedCardId := Flip(flippedCardId, id);
    }

    /** saveCanvas, with the canvas image as given. */
    method HandleSaveCanvas(image: string)
      modifies this
      ensures data == old(data).(scratchpadData := Some(image))
      ensures activeTool == old(activeTool) && Forms() == old(Forms())
    {
      data := data.(scratchpadData := Some(image));
    }

    method HandleClearCanvas()
      modifies this
      ensures data == old(data).(scratchpadData := Some(""))
      ensures activeTool == old(activeTool) && Forms() == old(Forms())
    {
      data := data.(scratchpadData := Some(""));
    }

    method HandleAddQuestion(id: string)
      modifies this
      ensures data == old(data).(questions := AddQuestion(old(data).questions, old(questionText), id))
      ensures activeTool == old(activeTool)
      ensures Forms() == if IsBlank(old(questionText)) then old(Forms()) else old(Forms()).(questionText := "")
    {
      if IsBlank(questionText) {
        return;
      }
      data := data.(questions := AddQuestion(data.questions, questionText, id));
      questionText := "";
    }

    method HandleToggleAnswered(id: string)
      modifies this
      ensures data == old(data).(questions := ToggleAnswered(old(data).questions, id))
      ensures activeTool == old(activeTool) && Forms() == old(Forms())
    {
      data := data.(questions := ToggleAnswered(data.questions, id));
    }

    method HandleDeleteQuestion(id: string)
      modifies this
      ensures data == old(data).(questions := WithoutId(old(data).questions, id, QuestionId()))
      ensures activeTool == old(activeTool) && Forms() == old(Forms())
    {
      data := data.(questions := WithoutId(data.questions, id, QuestionId()));
    }

    method HandleAddEvent(id: string)
      modifies this
      ensures data == old(data).(schoolEvents := AddEvent(old(data).schoolEvents, old(eventTitle), old(eventDate), id))
      ensures activeTool == old(activeTool)
      ensures Forms() == if old(eventTitle) == "" || old(eventDate) == "" then old(Forms())
        else old(Forms()).(eventTitle := "", eventDate := "")
    {
      if eventTitle == "" || eventDate == "" {
        return;
      }
      data := data.(schoolEvents := AddEvent(data.schoolEvents, eventTitle, eventDate, id));
      eventTitle, eventDate := "", "";
    }

    method HandleDeleteEvent(id: string)
      modifies this
      ensures data == old(data).(schoolEvents := WithoutId(old(data).schoolEvents, id, EventId()))
      ensures activeTool == old(activeTool) && Forms() == old(Forms())
    {
      data := data.(schoolEvents := WithoutId(data.schoolEvents, id, EventId()));
    }

    method HandleAddContact(id: string)
      modifies this
      ensures data == old(data).(contacts := AddContact(old(data).contacts, old(contactName), old(contactPhone), old(contactRole), id))
      ensures activeTool == old(activeTool)
      ensures Forms() == if old(contactName) == "" || old(contactPhone) == "" then old(Forms())
        else old(Forms()).(contactName := "", contactPhone := "", contactRole := "")
    {
      if contactName == "" || contactPhone == "" {
        return;
      }
      data := data.(contacts := AddContact(data.contacts, contactName, contactPhone, contactRole, id));
      contactName, contactPhone, contactRole := "", "", "";
    }

    method HandleDeleteContact(id: string)
      modifies this
      ensures data == old(data).(contacts := WithoutId(old(data).contacts, id, ContactId()))
      ensures activeTool == old(activeTool) && Forms() == old(Forms())
    {
      data := data.(contacts := WithoutId(data.contacts, id, ContactId()));
    }
  }
}
