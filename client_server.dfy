/**
 * What the client's requests mean to the server: the query string that
 * `fetchTasks` sends read back as listing parameters, the payload that
 * `addTask` posts read as a create body, the draft that a card saves read as
 * a full update, and a drop on the board carried through to the store.
 */
module ClientServer {
  import opened Wrappers
  import opened Text
  import opened TaskSchema
  import App
  import Server
  import KanbanBoard

  /** `req.query` for a query string: each parameter the string carries. */
  function ListParamsOf(ps: seq<App.Param>): Server.ListParams {
    Server.ListParams(
      sortBy := App.Lookup(ps, "sortBy"),
      sortOrder := App.Lookup(ps, "sortOrder"),
      subject := App.Lookup(ps, "subject"),
      status := App.Lookup(ps, "status"),
      priority := App.Lookup(ps, "priority"),
      search := App.Lookup(ps, "search"))
  }

  /**
   * A fetch selects exactly the tasks that agree with every non-empty client
   * filter and, for a non-empty search text, contain it in title or
   * description ignoring case; the store is asked to sort by the client's key,
   * descending exactly when the client's order is "desc".
   */
  lemma FetchSelectsFilteredTasks(sortBy: string, sortOrder: string, search: string, f: App.Filters,
                                  t: Task, sort: Server.SortDirective)
    ensures var p := ListParamsOf(App.QueryParams(sortBy, sortOrder, search, f));
      Server.Selects(p, t) <==>
        && (f.priority != "" ==> t.priority == f.priority)
        && (f.subject != "" ==> t.subject == f.subject)
        && (f.status != "" ==> t.status == f.status)
        && (search != "" ==> ContainsIgnoringCase(t.title, search) || ContainsIgnoringCase(t.description, search))
    ensures Server.SortsAsAsked(ListParamsOf(App.QueryParams(sortBy, sortOrder, search, f)), sort) <==>
      sort == Server.SortDirective(sortBy, if sortOrder == "desc" then -1 else 1)
  {
    App.QueryParamsLookup(sortBy, sortOrder, search, f);
  }

  /** The create body the server reads from a payload: the client sends no category. */
  function CreateBodyOf(p: App.Payload): Server.CreateBody {
    Server.CreateBody(
      title := Some(p.title),
      description := Some(p.description),
      priority := Some(p.priority),
      dueDate := p.dueDate,
      category := None,
      subject := Some(p.subject),
      status := Some(p.status))
  }

  /** The document the server builds for what `addTask` posts. */
  function CreatedFrom(text: string, priority: string, subject: string, dueDate: string): Task {
    Instantiate(Server.CreateFields(CreateBodyOf(App.CreatePayload(text, priority, subject, dueDate))))
  }

  /**
   * A non-blank input posted with a listed (or empty) priority and a listed
   * (or empty) subject is stored: its title and description are the input,
   * it is "To Do", not completed, in category "general" with order 0.
   */
  lemma AddedTaskIsStored(text: string, priority: string, subject: string, dueDate: string)
    requires !IsBlank(text)
    requires priority == "" || ParsePriority(priority).Some?
    requires subject == "" || ParseSubject(subject).Some?
    ensures var t := CreatedFrom(text, priority, subject, dueDate);
      && Validates(t)
      && t.title == text && t.description == text
      && t.status == "To Do" && !t.completed && t.category == "general" && t.order == 0
      && t.priority == (if priority == "" then "medium" else priority)
      && t.subject == (if subject == "" then "general" else subject)
      && t.dueDate == (if dueDate == "" then None else Some(dueDate))
  {
    NotBlankIsNonEmpty(text);
    var b := CreateBodyOf(App.CreatePayload(text, priority, subject, dueDate));
    Server.CreateAcceptedIff(b);
    Server.CreateFillsDefaults(b);
  }

  /**
   * The new-task form offers the subject "all", which is not in the schema's
   * list: such a post is rejected with the subject among the failing paths.
   */
  lemma SubjectAllIsRejected(text: string, priority: string, dueDate: string)
    ensures SubjectPath in Violations(CreatedFrom(text, priority, "all", dueDate))
    ensures !Validates(CreatedFrom(text, priority, "all", dueDate))
  {
    Server.CreateFillsDefaults(CreateBodyOf(App.CreatePayload(text, priority, "all", dueDate)));
  }

  /** The update body the server reads from a saved draft: every mutable field is defined. */
  function UpdateBodyOf(d: Doc): Server.UpdateBody {
    Server.UpdateBody(
      title := Some(d.task.title),
      description := Some(d.task.description),
      completed := Some(d.task.completed),
      priority := Some(d.task.priority),
      dueDate := Some(d.task.dueDate),
      category := Some(d.task.category),
      subject := Some(d.task.subject),
      status := Some(d.task.status))
  }

  /** Saving a draft stores the draft's fields, except that the stored order is kept. */
  lemma SavedDraftIsStored(stored: Task, draft: Doc)
    ensures Server.ApplyUpdate(stored, UpdateBodyOf(draft)) == draft.task.(order := stored.order)
  {
    Server.FullUpdateOverwrites(stored, UpdateBodyOf(draft));
  }

  /**
   * A drop on the board as a whole: at most one status patch reaches the
   * store. When `OnDragEnd` decides nothing, nothing is sent and the store is
   * unchanged; otherwise only the dragged task may change, and it takes the
   * destination column as its status, the destination index as its order,
   * and is completed exactly when dropped on "Completed".
   */
  method DropOnBoard(store: Server.TaskStore, ts: seq<Entry>, result: Option<KanbanBoard.DropResult>)
    returns (r: Option<Server.Response>)
    requires store.Valid()
    modifies store
    ensures store.Valid()
    ensures KanbanBoard.OnDragEnd(ts, result).None? ==> r.None? && store.tasks == old(store.tasks)
    ensures KanbanBoard.OnDragEnd(ts, result).Some? ==>
      var u := KanbanBoard.OnDragEnd(ts, result).value;
      && r.Some?
      && store.tasks.Keys == old(store.tasks).Keys
      && (forall id :: id in old(store.tasks) && id != u.id ==> store.tasks[id] == old(store.tasks)[id])
      && (u.id in old(store.tasks) ==>
            && store.tasks[u.id].status == u.status
            && store.tasks[u.id].order == u.order
            && (store.tasks[u.id].completed <==> u.status == "Completed"))
      && (u.id !in old(store.tasks) ==> r.value.code == 404)
  {
    var update := KanbanBoard.OnDragEnd(ts, result);
    if update.None? {
      r := None;
      return;
    }
    var u := update.value;
    var response := store.PatchStatus(u.id, Server.StatusBody(Some(u.status), Some(u.order)));
    r := Some(response);
  }
}
