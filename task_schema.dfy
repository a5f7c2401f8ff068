/**
 * The task document and the rules of its schema (server/models/Task.js):
 * the closed value lists of priority, subject and status, the two required
 * text fields, and the defaults applied to fields left undefined.
 */
module TaskSchema {
  import opened Wrappers

  /** Document identifiers, assigned by the store. */
  type Id = nat

  datatype Priority = Low | Medium | High

  function PriorityName(p: Priority): string {
    match p
    case Low => "low"
    case Medium => "medium"
    case High => "high"
  }

  /** The priority a stored string names, if it is one of the schema's values. */
  function ParsePriority(s: string): (r: Option<Priority>)
    ensures r.Some? ==> PriorityName(r.value) == s
    ensures r.None? ==> forall p: Priority :: PriorityName(p) != s
  {
    if s == "low" then Some(Low)
    else if s == "medium" then Some(Medium)
    else if s == "high" then Some(High)
    else None
  }

  datatype Subject =
    | English | Physics | Chemistry | Biology | Maths | SecondLanguage
    | Geography | History | Economics | Computer | General

  function SubjectName(s: Subject): string {
    match s
    case English => "English"
    case Physics => "Physics"
    case Chemistry => "Chemistry"
    case Biology => "Biology"
    case Maths => "Maths"
    case SecondLanguage => "Second Language"
    case Geography => "Geography"
    case History => "History"
    case Economics => "Economics"
    case Computer => "Computer"
    case General => "general"
  }

  /** The subject a stored string names, if it is one of the eleven schema values. */
  function ParseSubject(s: string): (r: Option<Subject>)
    ensures r.Some? ==> SubjectName(r.value) == s
    ensures r.None? ==> forall x: Subject :: SubjectName(x) != s
  {
    if s == "English" then Some(English)
    else if s == "Physics" then Some(Physics)
    else if s == "Chemistry" then Some(Chemistry)
    else if s == "Biology" then Some(Biology)
    else if s == "Maths" then Some(Maths)
    else if s == "Second Language" then Some(SecondLanguage)
    else if s == "Geography" then Some(Geography)
    else if s == "History" then Some(History)
    else if s == "Economics" then Some(Economics)
    else if s == "Computer" then Some(Computer)
    else if s == "general" then Some(General)
    else None
  }

  datatype Status = ToDo | InProgress | Completed

  function StatusName(s: Status): string {
    match s
    case ToDo => "To Do"
    case InProgress => "In Progress"
    case Completed => "Completed"
  }

  /** The status a stored string names, if it is one of the three board columns. */
  function ParseStatus(s: string): (r: Option<Status>)
    ensures r.Some? ==> StatusName(r.value) == s
    ensures r.None? ==> forall x: Status :: StatusName(x) != s
  {
    if s == "To Do" then Some(ToDo)
    else if s == "In Progress" then Some(InProgress)
    else if s == "Completed" then Some(Completed)
    else None
  }

  // Schema defaults.
  const DefaultCompleted := false
  const DefaultPriority := "medium"
  const DefaultCategory := "general"
  const DefaultSubject := "general"
  const DefaultStatus := "To Do"
  const DefaultOrder := 0

  /**
   * A task document. Priority, subject and status are kept as the strings the
   * store holds: updates through findByIdAndUpdate do not run the schema's
   * validators, so a stored document may hold any string there. A due date is
   * kept as its text; `None` is a null or absent date.
   */
  datatype Task = Task(
    title: string,
    description: string,
    completed: bool,
    priority: string,
    dueDate: Option<string>,
    category: string,
    subject: string,
    status: string,
    order: int)

  /** A stored document together with the identifier the store gave it (`_id`). */
  datatype Doc = Doc(id: Id, task: Task)

  /** An element of a task list as a client holds it: a document, or JSON null. */
  datatype Entry = Null | Item(doc: Doc)

  /** The entry is a document with identifier `id` (`e?._id === id`). */
  predicate HasId(e: Entry, id: Id) {
    e.Item? && e.doc.id == id
  }

  /** The fields handed to the model's constructor; `None` is `undefined`. */
  datatype Fields = Fields(
    title: Option<string>,
    description: Option<string>,
    completed: Option<bool>,
    priority: Option<string>,
    dueDate: Option<string>,
    category: Option<string>,
    subject: Option<string>,
    status: Option<string>,
    order: Option<int>)

  /** A schema path whose validator can fail. */
  datatype Path = TitlePath | DescriptionPath | PriorityPath | SubjectPath | StatusPath

  /**
   * The document built from `f`: each given field is kept and each undefined
   * one takes the schema default. Title and description have no default; an
   * undefined one is held as "" here, which the required validator rejects
   * exactly as it rejects undefined.
   */
  function Instantiate(f: Fields): (t: Task)
    ensures f.completed.None? ==> !t.completed
    ensures f.priority.None? ==> t.priority == DefaultPriority
    ensures f.dueDate.None? ==> t.dueDate.None?
    ensures f.category.None? ==> t.category == DefaultCategory
    ensures f.subject.None? ==> t.subject == DefaultSubject
    ensures f.status.None? ==> t.status == DefaultStatus
    ensures f.order.None? ==> t.order == DefaultOrder
  {
    Task(
      title := f.title.GetOr(""),
      description := f.description.GetOr(""),
      completed := f.completed.GetOr(DefaultCompleted),
      priority := f.priority.GetOr(DefaultPriority),
      dueDate := f.dueDate,
      category := f.category.GetOr(DefaultCategory),
      subject := f.subject.GetOr(DefaultSubject),
      status := f.status.GetOr(DefaultStatus),
      order := f.order.GetOr(DefaultOrder))
  }

  /** The paths whose validators reject `t`: Mongoose reports all of them at once. */
  function Violations(t: Task): (r: set<Path>)
    ensures TitlePath in r <==> t.title == ""
    ensures DescriptionPath in r <==> t.description == ""
    ensures PriorityPath in r <==> forall p: Priority :: PriorityName(p) != t.priority
    ensures SubjectPath in r <==> forall j: Subject :: SubjectName(j) != t.subject
    ensures StatusPath in r <==> forall st: Status :: StatusName(st) != t.status
  {
    (if t.title == "" then {TitlePath} else {})
    + (if t.description == "" then {DescriptionPath} else {})
    + (if ParsePriority(t.priority).None? then {PriorityPath} else {})
    + (if ParseSubject(t.subject).None? then {SubjectPath} else {})
    + (if ParseStatus(t.status).None? then {StatusPath} else {})
  }

  /** `t` passes the schema's validation: both required texts are non-empty and each enumerated field names a listed value. */
  predicate Validates(t: Task): (r: bool)
    ensures r <==>
      && t.title != ""
      && t.description != ""
      && (exists p: Priority :: PriorityName(p) == t.priority)
      && (exists j: Subject :: SubjectName(j) == t.subject)
      && (exists st: Status :: StatusName(st) == t.status)
  {
    Violations(t) == {}
  }

  /** Validation succeeds exactly when both required texts are non-empty and the three enumerated fields hold listed values. */
  lemma ValidatesIff(t: Task)
    ensures Validates(t) <==>
      && t.title != ""
      && t.description != ""
      && ParsePriority(t.priority).Some?
      && ParseSubject(t.subject).Some?
      && ParseStatus(t.status).Some?
  {
    if Validates(t) {
      assert TitlePath !in Violations(t);
      assert DescriptionPath !in Violations(t);
      assert PriorityPath !in Violations(t);
      assert SubjectPath !in Violations(t);
    }
  }

  /** The completion flag and the order play no part in validation. */
  lemma ValidationIgnoresCompletedAndOrder(t: Task, completed: bool, order: int)
    ensures Violations(t.(completed := completed, order := order)) == Violations(t)
  {
  }

  /** Every schema default is one of the schema's own listed values. */
  lemma DefaultsAreListed()
    ensures ParsePriority(DefaultPriority) == Some(Medium)
    ensures ParseSubject(DefaultSubject) == Some(General)
    ensures ParseStatus(DefaultStatus) == Some(ToDo)
  {
  }

  /**
   * An undefined enumerated field never fails validation: a document built
   * from `f` passes exactly when title and description are given and non-empty
   * and every enumerated field that is given holds a listed value.
   */
  lemma InstantiateValidatesIff(f: Fields)
    ensures Validates(Instantiate(f)) <==>
      && f.title.Some? && f.title.value != ""
      && f.description.Some? && f.description.value != ""
      && (f.priority.Some? ==> ParsePriority(f.priority.value).Some?)
      && (f.subject.Some? ==> ParseSubject(f.subject.value).Some?)
      && (f.status.Some? ==> ParseStatus(f.status.value).Some?)
  {
    ValidatesIff(Instantiate(f));
  }

  /** A task given only a title and a description takes every other default. */
  lemma MinimalTaskDefaults(title: string, description: string)
    ensures var t := Instantiate(Fields(Some(title), Some(description), None, None, None, None, None, None, None));
      && t == Task(title, description, false, "medium", None, "general", "general", "To Do", 0)
      && (Validates(t) <==> title != "" && description != "")
  {
    ValidatesIff(Instantiate(Fields(Some(title), Some(description), None, None, None, None, None, None, None)));
  }

  /**
   * Building and validating a document (`new Task(f)` followed by `save`):
   * the built document when it passes, otherwise the non-empty set of
   * failing paths.
   */
  function Build(f: Fields): (r: Result<Task, set<Path>>)
    ensures r.Ok? <==> Validates(Instantiate(f))
    ensures r.Ok? ==> r.value == Instantiate(f)
    ensures r.Err? ==> r.error == Violations(Instantiate(f)) && r.error != {}
  {
    var t := Instantiate(f);
    if Violations(t) == {} then Ok(t) else Err(Violations(t))
  }
}
