/**
 * The route handlers of the task API (server/server.js) over an abstract
 * document store: a map from identifiers to task documents plus the choice
 * of a fresh identifier. Each handler is modelled as one atomic step that
 * returns the HTTP status code and body it sends.
 */
module Server {
  import opened Wrappers
  import opened Text
  import opened TaskSchema

  /** JavaScript truthiness of an optional string field: present and non-empty. */
  predicate Given(o: Option<string>) {
    o.Some? && o.value != ""
  }

  /** `o || fallback` on an optional string. */
  function Or(o: Option<string>, fallback: string): string {
    if Given(o) then o.value else fallback
  }

  // ---------------------------------------------------------------- listing

  /** Query parameters of `GET /tasks`; `None` is a parameter that is not sent. */
  datatype ListParams = ListParams(
    sortBy: Option<string>,
    sortOrder: Option<string>,
    subject: Option<string>,
    status: Option<string>,
    priority: Option<string>,
    search: Option<string>)

  /** One alternative of the `$or` clause: a case-insensitive pattern on a text field. */
  datatype Condition = TitleMatches(pattern: string) | DescriptionMatches(pattern: string)

  /** The query document handed to the store: exact-match fields and an optional `$or`. */
  datatype Query = Query(
    subject: Option<string>,
    status: Option<string>,
    priority: Option<string>,
    anyOf: Option<seq<Condition>>)

  predicate Holds(c: Condition, t: Task) {
    match c
    case TitleMatches(p) => ContainsIgnoringCase(t.title, p)
    case DescriptionMatches(p) => ContainsIgnoringCase(t.description, p)
  }

  /** How the store reads a query document: every present field must be equal, and one `$or` alternative must hold. */
  predicate Matches(q: Query, t: Task) {
    && (q.subject.Some? ==> t.subject == q.subject.value)
    && (q.status.Some? ==> t.status == q.status.value)
    && (q.priority.Some? ==> t.priority == q.priority.value)
    && (q.anyOf.Some? ==> exists c | c in q.anyOf.value :: Holds(c, t))
  }

  /**
   * What a listing promises, stated on the request: each non-empty filter is
   * an exact match, and a non-empty search must occur, ignoring case, in the
   * title or in the description.
   */
  predicate Selects(p: ListParams, t: Task) {
    && (Given(p.subject) ==> t.subject == p.subject.value)
    && (Given(p.status) ==> t.status == p.status.value)
    && (Given(p.priority) ==> t.priority == p.priority.value)
    && (Given(p.search) ==>
          ContainsIgnoringCase(t.title, p.search.value) || ContainsIgnoringCase(t.description, p.search.value))
  }

  /** With no filter and no search given, every task is selected. */
  lemma NoFiltersSelectAll(p: ListParams, t: Task)
    requires !Given(p.subject) && !Given(p.status) && !Given(p.priority) && !Given(p.search)
    ensures Selects(p, t)
  {
  }

  /** Builds the query document by conditional field assignment. */
  method BuildQuery(p: ListParams) returns (q: Query)
    ensures q.subject.Some? <==> Given(p.subject)
    ensures q.status.Some? <==> Given(p.status)
    ensures q.priority.Some? <==> Given(p.priority)
    ensures q.anyOf.Some? <==> Given(p.search)
    ensures forall t :: Matches(q, t) <==> Selects(p, t)
  {
    q := Query(None, None, None, None);
    if Given(p.subject) { q := q.(subject := p.subject); }
    if Given(p.status) { q := q.(status := p.status); }
    if Given(p.priority) { q := q.(priority := p.priority); }
    if Given(p.search) {
      var s := p.search.value;
      var conditions := [TitleMatches(s), DescriptionMatches(s)];
      q := q.(anyOf := Some(conditions));
      forall t ensures (exists c | c in conditions :: Holds(c, t)) <==>
                       ContainsIgnoringCase(t.title, s) || ContainsIgnoringCase(t.description, s) {
        if ContainsIgnoringCase(t.title, s) {
          assert Holds(conditions[0], t);
        } else if ContainsIgnoringCase(t.description, s) {
          assert Holds(conditions[1], t);
        }
      }
    }
  }

  /** A sort directive: a field name and direction -1 (descending) or 1 (ascending). */
  datatype SortDirective = SortDirective(field: string, direction: int)

  /** The sort a listing asks for: by `createdAt` unless another field is named, descending unless `sortOrder` is sent and is not "desc". */
  predicate SortsAsAsked(p: ListParams, s: SortDirective) {
    && s.field == p.sortBy.GetOr("createdAt")
    && (s.direction == -1 <==> p.sortOrder.None? || p.sortOrder.value == "desc")
    && (s.direction == 1 <==> p.sortOrder.Some? && p.sortOrder.value != "desc")
  }

  method BuildSort(p: ListParams) returns (s: SortDirective)
    ensures SortsAsAsked(p, s)
  {
    var sortBy := if p.sortBy.Some? then p.sortBy.value else "createdAt";
    var sortOrder := if p.sortOrder.Some? then p.sortOrder.value else "desc";
    s := SortDirective(sortBy, if sortOrder == "desc" then -1 else 1);
  }

  // --------------------------------------------------------------- creation

  /** The body of `POST /tasks`; `None` is an undefined or null field. */
  datatype CreateBody = CreateBody(
    title: Option<string>,
    description: Option<string>,
    priority: Option<string>,
    dueDate: Option<string>,
    category: Option<string>,
    subject: Option<string>,
    status: Option<string>)

  /** The fields the create handler passes to the model, with its own fallbacks for falsy values. */
  function CreateFields(b: CreateBody): (f: Fields)
    ensures f.title == b.title && f.description == b.description
    ensures f.completed.None? && f.order.None?
    ensures f.dueDate.Some? <==> Given(b.dueDate)
    ensures f.dueDate.Some? ==> f.dueDate == b.dueDate
    ensures f.priority == Some(if Given(b.priority) then b.priority.value else "medium")
    ensures f.category == Some(if Given(b.category) then b.category.value else "general")
    ensures f.subject == Some(if Given(b.subject) then b.subject.value else "general")
    ensures f.status == Some(if Given(b.status) then b.status.value else "To Do")
  {
    Fields(
      title := b.title,
      description := b.description,
      completed := None,
      priority := Some(Or(b.priority, "medium")),
      dueDate := if Given(b.dueDate) then b.dueDate else None,
      category := Some(Or(b.category, "general")),
      subject := Some(Or(b.subject, "general")),
      status := Some(Or(b.status, "To Do")),
      order := None)
  }

  /**
   * The document a create builds: priority, category, subject and status fall
   * back to "medium", "general", "general" and "To Do" when missing or empty,
   * the due date is null unless one is given, and the schema sets completed to
   * false and order to 0.
   */
  lemma CreateFillsDefaults(b: CreateBody)
    ensures var t := Instantiate(CreateFields(b));
      && t.title == b.title.GetOr("")
      && t.description == b.description.GetOr("")
      && t.priority == (if Given(b.priority) then b.priority.value else "medium")
      && t.category == (if Given(b.category) then b.category.value else "general")
      && t.subject == (if Given(b.subject) then b.subject.value else "general")
      && t.status == (if Given(b.status) then b.status.value else "To Do")
      && t.dueDate == (if Given(b.dueDate) then b.dueDate else None)
      && !t.completed && t.order == 0
  {
  }

  /**
   * A create passes validation exactly when title and description are
   * non-empty and every non-empty priority, subject and status is a listed
   * value (an empty or missing one is replaced by a default that is listed).
   */
  lemma CreateAcceptedIff(b: CreateBody)
    ensures Validates(Instantiate(CreateFields(b))) <==>
      && Given(b.title) && Given(b.description)
      && (Given(b.priority) ==> ParsePriority(b.priority.value).Some?)
      && (Given(b.subject) ==> ParseSubject(b.subject.value).Some?)
      && (Given(b.status) ==> ParseStatus(b.status.value).Some?)
  {
    InstantiateValidatesIff(CreateFields(b));
    DefaultsAreListed();
  }

  // ---------------------------------------------------------------- updates

  /**
   * The body of `PUT /tasks/:id`. `None` is an undefined field, which the
   * update leaves as stored; a due date of `Some(None)` is an explicit null.
   */
  datatype UpdateBody = UpdateBody(
    title: Option<string>,
    description: Option<string>,
    completed: Option<bool>,
    priority: Option<string>,
    dueDate: Option<Option<string>>,
    category: Option<string>,
    subject: Option<string>,
    status: Option<string>)

  /** The stored task after a full update: each field the body defines is written, the rest and the order are kept. */
  function ApplyUpdate(t: Task, b: UpdateBody): (u: Task)
    ensures u.order == t.order
  {
    Task(
      title := b.title.GetOr(t.title),
      description := b.description.GetOr(t.description),
      completed := b.completed.GetOr(t.completed),
      priority := b.priority.GetOr(t.priority),
      dueDate := b.dueDate.GetOr(t.dueDate),
      category := b.category.GetOr(t.category),
      subject := b.subject.GetOr(t.subject),
      status := b.status.GetOr(t.status),
      order := t.order)
  }

  /** Sending the same update twice stores the same task as sending it once. */
  lemma ApplyUpdateIdempotent(t: Task, b: UpdateBody)
    ensures ApplyUpdate(ApplyUpdate(t, b), b) == ApplyUpdate(t, b)
  {
  }

  /** A body that defines every field stores exactly those fields, whatever was stored before, except for the order, which is kept. */
  lemma FullUpdateOverwrites(t: Task, b: UpdateBody)
    requires b.title.Some? && b.description.Some? && b.completed.Some? && b.priority.Some?
    requires b.dueDate.Some? && b.category.Some? && b.subject.Some? && b.status.Some?
    ensures ApplyUpdate(t, b) == Task(b.title.value, b.description.value, b.completed.value, b.priority.value,
                                      b.dueDate.value, b.category.value, b.subject.value, b.status.value, t.order)
  {
  }

  /** The body of `PATCH /tasks/:id/status` sent by a drag on the board. */
  datatype StatusBody = StatusBody(status: Option<string>, order: Option<int>)

  /**
   * A status patch writes the given status and order and always writes
   * `completed`, as true exactly when the new status is "Completed"; every
   * other field is kept.
   */
  function ApplyStatusPatch(t: Task, b: StatusBody): (u: Task)
    ensures u.completed <==> b.status == Some("Completed")
    ensures u.status == b.status.GetOr(t.status) && u.order == b.order.GetOr(t.order)
    ensures u.(completed := t.completed, status := t.status, order := t.order) == t
  {
    t.(status := b.status.GetOr(t.status), order := b.order.GetOr(t.order),
       completed := b.status == Some("Completed"))
  }

  /** The intended relation between the two completion fields. */
  predicate Consistent(t: Task) {
    t.completed <==> t.status == "Completed"
  }

  /** A status patch that names a status leaves the task consistent. */
  lemma StatusPatchMakesConsistent(t: Task, b: StatusBody)
    requires b.status.Some?
    ensures Consistent(ApplyStatusPatch(t, b))
  {
  }

  /** A status patch that sends only an order clears `completed`, even on a task whose status is "Completed". */
  lemma OrderOnlyPatchClearsCompleted(t: Task, order: int)
    ensures var u := ApplyStatusPatch(t, StatusBody(None, Some(order)));
      !u.completed && u.status == t.status && u.order == order
  {
  }

  /** Toggling negates the completion flag and keeps every other field. */
  function Flip(t: Task): (u: Task)
    ensures u.completed == !t.completed
    ensures u.(completed := t.completed) == t
  {
    t.(completed := !t.completed)
  }

  /** Toggling twice restores the task. */
  lemma FlipInvolution(t: Task)
    ensures Flip(Flip(t)) == t
  {
  }

  /** Toggling does not change whether the document passes validation. */
  lemma FlipKeepsValidation(t: Task)
    ensures Violations(Flip(t)) == Violations(t)
  {
    ValidationIgnoresCompletedAndOrder(t, !t.completed, t.order);
  }

  /** Toggling breaks the relation between status and completion that a status patch sets up. */
  lemma FlipBreaksConsistency(t: Task)
    requires Consistent(t)
    ensures !Consistent(Flip(t))
  {
  }

  // --------------------------------------------------------------- responses

  /** Why a request failed with 500. */
  datatype Failure =
    | NullDereference        // the handler read a field of a document that was not found
    | SaveRejected(paths: set<Path>)  // `save` ran the validators and they failed

  datatype Body =
    | One(doc: Doc)
    | Found(docs: set<Doc>)
    | NullBody
    | Message(text: string)
    | Invalid(paths: set<Path>)
    | Error(failure: Failure)

  datatype Response = Response(code: int, body: Body)

  /** The store and the handlers that read and write it. */
  class TaskStore {
    var tasks: map<Id, Task>
    var nextId: Id

    /** Every stored identifier was handed out before `nextId`, so `nextId` is fresh. */
    ghost predicate Valid()
      reads this
    {
      forall id :: id in tasks ==> id < nextId
    }

    constructor ()
      ensures Valid() && tasks == map[]
    {
      tasks := map[];
      nextId := 0;
    }

    /**
     * `GET /tasks`: the stored documents the parameters select, and the sort
     * directive handed to the store (which orders the array it sends).
     */
    method List(p: ListParams) returns (r: Response, sort: SortDirective)
      ensures r.code == 200 && r.body.Found?
      ensures forall d :: d in r.body.docs <==> d.id in tasks && tasks[d.id] == d.task && Selects(p, d.task)
      ensures SortsAsAsked(p, sort)
    {
      var query := BuildQuery(p);
      sort := BuildSort(p);
      var found := set id | id in tasks && Matches(query, tasks[id]) :: Doc(id, tasks[id]);
      r := Response(200, Found(found));
    }

    /**
     * `POST /tasks`: a valid document is stored under a fresh identifier and
     * returned with 201; an invalid one is answered with 400 and the failing
     * paths, and nothing is stored.
     */
    method Create(b: CreateBody) returns (r: Response)
      requires Valid()
      modifies this
      ensures Valid()
      ensures var t := Instantiate(CreateFields(b));
        if Validates(t) then
          && old(nextId) !in old(tasks)
          && tasks == old(tasks)[old(nextId) := t]
          && |tasks| == |old(tasks)| + 1
          && r == Response(201, One(Doc(old(nextId), t)))
        else
          && tasks == old(tasks) && nextId == old(nextId)
          && r == Response(400, Invalid(Violations(t)))
          && r.body.paths != {}
    {
      match Build(CreateFields(b))
      case Ok(t) =>
        r := Response(201, One(Doc(nextId, t)));
        tasks := tasks[nextId := t];
        nextId := nextId + 1;
      case Err(paths) =>
        r := Response(400, Invalid(paths));
    }

    /** `PUT /tasks/:id`: the updated document, or 200 with a null body when the id is unknown. */
    method Update(id: Id, b: UpdateBody) returns (r: Response)
      requires Valid()
      modifies this
      ensures Valid() && nextId == old(nextId)
      ensures id in old(tasks) ==>
        && tasks == old(tasks)[id := ApplyUpdate(old(tasks)[id], b)]
        && r == Response(200, One(Doc(id, tasks[id])))
      ensures id !in old(tasks) ==> tasks == old(tasks) && r == Response(200, NullBody)
    {
      if id in tasks {
        var updated := ApplyUpdate(tasks[id], b);
        tasks := tasks[id := updated];
        r := Response(200, One(Doc(id, updated)));
      } else {
        r := Response(200, NullBody);
      }
    }

    /** `PATCH /tasks/:id/status`: the patched document, or 404 and no change when the id is unknown. */
    method PatchStatus(id: Id, b: StatusBody) returns (r: Response)
      requires Valid()
      modifies this
      ensures Valid() && nextId == old(nextId)
      ensures id in old(tasks) ==>
        && tasks == old(tasks)[id := ApplyStatusPatch(old(tasks)[id], b)]
        && r == Response(200, One(Doc(id, tasks[id])))
      ensures id !in old(tasks) ==> tasks == old(tasks) && r == Response(404, Message("Task not found"))
    {
      if id in tasks {
        var updated := ApplyStatusPatch(tasks[id], b);
        tasks := tasks[id := updated];
        r := Response(200, One(Doc(id, updated)));
      } else {
        r := Response(404, Message("Task not found"));
      }
    }

    /**
     * `PATCH /tasks/:id/toggle`: loads the document, negates `completed` and
     * saves it. An unknown id fails with 500 when the handler reads the null
     * result; `save` validates the document and fails with 500 if it does not
     * pass. Either failure leaves the store unchanged.
     */
    method Toggle(id: Id) returns (r: Response)
      requires Valid()
      modifies this
      ensures Valid() && nextId == old(nextId)
      ensures id !in old(tasks) ==> tasks == old(tasks) && r == Response(500, Error(NullDereference))
      ensures id in old(tasks) && !Validates(old(tasks)[id]) ==>
        tasks == old(tasks) && r == Response(500, Error(SaveRejected(Violations(old(tasks)[id]))))
      ensures id in old(tasks) && Validates(old(tasks)[id]) ==>
        && tasks == old(tasks)[id := Flip(old(tasks)[id])]
        && r == Response(200, One(Doc(id, tasks[id])))
    {
      if id !in tasks {
        r := Response(500, Error(NullDereference));
        return;
      }
      var task := tasks[id];
      task := task.(completed := !task.completed);
      FlipKeepsValidation(tasks[id]);
      var violations := Violations(task);
      if violations != {} {
        r := Response(500, Error(SaveRejected(violations)));
      } else {
        tasks := tasks[id := task];
        r := Response(200, One(Doc(id, task)));
      }
    }

    /** `DELETE /tasks/:id`: removes the id if present and always confirms. */
    method Delete(id: Id) returns (r: Response)
      requires Valid()
      modifies this
      ensures Valid() && nextId == old(nextId)
      ensures tasks == old(tasks) - {id}
      ensures r == Response(200, Message("Task deleted"))
    {
      tasks := tasks - {id};
      r := Response(200, Message("Task deleted"));
    }
  }

  /** Two toggles of the same id leave the store as it was, whether they succeed or fail. */
  method ToggleTwice(store: TaskStore, id: Id) returns (first: Response, second: Response)
    requires store.Valid()
    modifies store
    ensures store.Valid() && store.tasks == old(store.tasks)
    ensures first.code == second.code
  {
    first := store.Toggle(id);
    if id in old(store.tasks) {
      FlipKeepsValidation(old(store.tasks)[id]);
      FlipInvolution(old(store.tasks)[id]);
    }
    second := store.Toggle(id);
  }

  /** Deleting twice removes the id once and confirms both times. */
  method DeleteTwice(store: TaskStore, id: Id) returns (first: Response, second: Response)
    requires store.Valid()
    modifies store
    ensures store.Valid() && store.tasks == old(store.tasks) - {id}
    ensures first == second == Response(200, Message("Task deleted"))
  {
    first := store.Delete(id);
    second := store.Delete(id);
  }

  /** A successful create followed by a delete of the returned id restores the store. */
  method CreateThenDelete(store: TaskStore, b: CreateBody) returns (created: Response)
    requires store.Valid()
    modifies store
    ensures store.Valid() && store.tasks == old(store.tasks)
  {
    created := store.Create(b);
    if created.code == 201 {
      var _ := store.Delete(created.body.doc.id);
    }
  }
}
