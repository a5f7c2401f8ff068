/**
 * The application component (src/App.jsx): its state, the request it sends
 * for each user action, and how it reconciles its task list with the
 * server's reply. Each handler is one atomic step; the server's reply is a
 * parameter.
 */
module App {
  import opened Wrappers
  import opened Text
  import opened TaskSchema

  /**
   * The reply to a mutating request as a handler sees it: `Failed` when the
   * response is not ok or the request throws, else the JSON body.
   */
  datatype Reply = Failed | Succeeded(body: Entry)

  // ---------------------------------------------------------- reconciliation

  /**
   * `tasks.map(task => task._id === id ? e : task)`, which throws (`None`) as
   * soon as it reads `_id` of a null entry.
   */
  function ReplaceById(ts: seq<Entry>, id: Id, e: Entry): (r: Option<seq<Entry>>)
    ensures r.Some? <==> Null !in ts
    ensures r.Some? ==> |r.value| == |ts|
    ensures r.Some? ==> forall i :: 0 <= i < |ts| ==> r.value[i] == if HasId(ts[i], id) then e else ts[i]
  {
    if ts == [] then Some([])
    else if ts[0].Null? then None
    else
      match ReplaceById(ts[1..], id, e)
      case None => None
      case Some(rest) => Some([if HasId(ts[0], id) then e else ts[0]] + rest)
  }

  /**
   * `tasks.filter(task => task._id !== id)`, which throws (`None`) when the
   * list holds a null entry.
   */
  function RemoveById(ts: seq<Entry>, id: Id): (r: Option<seq<Entry>>)
    ensures r.Some? <==> Null !in ts
    ensures r.Some? ==> |r.value| <= |ts|
  {
    if ts == [] then Some([])
    else if ts[0].Null? then None
    else
      match RemoveById(ts[1..], id)
      case None => None
      case Some(rest) => Some((if HasId(ts[0], id) then [] else [ts[0]]) + rest)
  }

  /** Removal drops every entry with the id and keeps every other entry as often as it occurred. */
  lemma {:induction false} RemoveByIdCounts(ts: seq<Entry>, id: Id, e: Entry)
    requires Null !in ts
    ensures multiset(RemoveById(ts, id).value)[e] == if HasId(e, id) then 0 else multiset(ts)[e]
  {
    if ts != [] {
      assert ts == [ts[0]] + ts[1..];
      assert Null !in ts[1..];
      RemoveByIdCounts(ts[1..], id, e);
    }
  }

  /** Removal keeps the surviving entries in their list order: it distributes over concatenation. */
  lemma {:induction false} RemoveByIdAppend(a: seq<Entry>, b: seq<Entry>, id: Id)
    requires Null !in a && Null !in b
    ensures RemoveById(a + b, id) == Some(RemoveById(a, id).value + RemoveById(b, id).value)
  {
    if a == [] {
      assert a + b == b;
      assert RemoveById(a, id).value == [];
      assert [] + RemoveById(b, id).value == RemoveById(b, id).value;
    } else {
      assert (a + b)[0] == a[0] && (a + b)[1..] == a[1..] + b;
      assert Null !in a[1..];
      RemoveByIdAppend(a[1..], b, id);
      var head := if HasId(a[0], id) then [] else [a[0]];
      assert RemoveById(a + b, id).value == head + RemoveById(a[1..] + b, id).value;
      assert RemoveById(a, id).value == head + RemoveById(a[1..], id).value;
      assert head + (RemoveById(a[1..], id).value + RemoveById(b, id).value)
          == (head + RemoveById(a[1..], id).value) + RemoveById(b, id).value;
    }
  }

  /** Removing an id that no entry has leaves the list as it was. */
  lemma {:induction false} RemoveAbsentId(ts: seq<Entry>, id: Id)
    requires Null !in ts
    requires forall i :: 0 <= i < |ts| ==> !HasId(ts[i], id)
    ensures RemoveById(ts, id) == Some(ts)
  {
    if ts != [] {
      assert Null !in ts[1..];
      assert forall i :: 0 <= i < |ts[1..]| ==> ts[1..][i] == ts[i + 1];
      RemoveAbsentId(ts[1..], id);
      assert !HasId(ts[0], id);
      assert ts == [ts[0]] + ts[1..];
    }
  }

  /** The list after a replace-by-id handler: replaced on success, unchanged if the reply failed or the map threw. */
  function AfterReplace(ts: seq<Entry>, id: Id, reply: Reply): (r: seq<Entry>)
    ensures |r| == |ts|
    ensures reply.Succeeded? && Null !in ts ==>
      forall i :: 0 <= i < |ts| ==> r[i] == if HasId(ts[i], id) then reply.body else ts[i]
    ensures reply.Failed? || Null in ts ==> r == ts
  {
    if reply.Succeeded? && Null !in ts then ReplaceById(ts, id, reply.body).value else ts
  }

  /** The list after a delete: filtered on success, unchanged if the reply failed or the filter threw. */
  function AfterDelete(ts: seq<Entry>, id: Id, reply: Reply): (r: seq<Entry>)
    ensures |r| <= |ts|
    ensures reply.Failed? || Null in ts ==> r == ts
  {
    if reply.Succeeded? && Null !in ts then RemoveById(ts, id).value else ts
  }

  // ------------------------------------------------------------ query string

  type Param = (string, string)

  /** `URLSearchParams.get(key)`: the value of the first pair with that key. */
  function Lookup(ps: seq<Param>, key: string): Option<string> {
    if ps == [] then None
    else if ps[0].0 == key then Some(ps[0].1)
    else Lookup(ps[1..], key)
  }

  lemma LookupCons(p: Param, ps: seq<Param>, key: string)
    ensures Lookup([p] + ps, key) == if p.0 == key then Some(p.1) else Lookup(ps, key)
  {
    assert ([p] + ps)[1..] == ps;
  }

  lemma {:induction false} LookupAppend(a: seq<Param>, b: seq<Param>, key: string)
    ensures Lookup(a + b, key) == if Lookup(a, key).Some? then Lookup(a, key) else Lookup(b, key)
  {
    if a == [] {
      assert a + b == b;
    } else {
      assert (a + b)[1..] == a[1..] + b;
      LookupAppend(a[1..], b, key);
    }
  }

  /** The three list filters; "" means "All". */
  datatype Filters = Filters(priority: string, subject: string, status: string)

  const NoFilters := Filters("", "", "")

  /** The pair `key=value` when the filter value is non-empty, else nothing. */
  function Optional(key: string, value: string): seq<Param> {
    if value != "" then [(key, value)] else []
  }

  lemma LookupOptional(key: string, value: string, k: string)
    ensures Lookup(Optional(key, value), k) == if k == key && value != "" then Some(value) else None
  {
    if value != "" {
      LookupCons((key, value), [], k);
    }
  }

  /** The parameters `fetchTasks` sends: sort key, sort order and search always, each filter only when set. */
  function QueryParams(sortBy: string, sortOrder: string, search: string, f: Filters): (ps: seq<Param>)
    ensures |ps| >= 3 && ps[..3] == [("sortBy", sortBy), ("sortOrder", sortOrder), ("search", search)]
  {
    [("sortBy", sortBy), ("sortOrder", sortOrder), ("search", search)]
    + Optional("priority", f.priority) + Optional("subject", f.subject) + Optional("status", f.status)
  }

  /** Read back by key, the parameters carry the three sort and search values and exactly the non-empty filters. */
  lemma QueryParamsLookup(sortBy: string, sortOrder: string, search: string, f: Filters)
    ensures var ps := QueryParams(sortBy, sortOrder, search, f);
      && Lookup(ps, "sortBy") == Some(sortBy)
      && Lookup(ps, "sortOrder") == Some(sortOrder)
      && Lookup(ps, "search") == Some(search)
      && Lookup(ps, "priority") == (if f.priority != "" then Some(f.priority) else None)
      && Lookup(ps, "subject") == (if f.subject != "" then Some(f.subject) else None)
      && Lookup(ps, "status") == (if f.status != "" then Some(f.status) else None)
  {
    var p, s, t := Optional("priority", f.priority), Optional("subject", f.subject), Optional("status", f.status);
    var ps := QueryParams(sortBy, sortOrder, search, f);
    var tail := p + (s + t);
    assert ps == [("sortBy", sortBy)] + ([("sortOrder", sortOrder)] + ([("search", search)] + tail));
    forall k | k in ["sortBy", "sortOrder", "search", "priority", "subject", "status"]
      ensures Lookup(ps, k) ==
        if k == "sortBy" then Some(sortBy)
        else if k == "sortOrder" then Some(sortOrder)
        else if k == "search" then Some(search)
        else Lookup(tail, k)
    {
      LookupCons(("sortBy", sortBy), [("sortOrder", sortOrder)] + ([("search", search)] + tail), k);
      LookupCons(("sortOrder", sortOrder), [("search", search)] + tail, k);
      LookupCons(("search", search), tail, k);
    }
    forall k | k in ["priority", "subject", "status"]
      ensures Lookup(tail, k) ==
        if k == "priority" && f.priority != "" then Some(f.priority)
        else if k == "subject" && f.subject != "" then Some(f.subject)
        else if k == "status" && f.status != "" then Some(f.status)
        else None
    {
      LookupAppend(p, s + t, k);
      LookupAppend(s, t, k);
      LookupOptional("priority", f.priority, k);
      LookupOptional("subject", f.subject, k);
      LookupOptional("status", f.status, k);
    }
  }

  // ----------------------------------------------------------------- filters

  datatype FilterKind = PriorityFilter | SubjectFilter | StatusFilter

  function Selected(f: Filters, k: FilterKind): string {
    match k
    case PriorityFilter => f.priority
    case SubjectFilter => f.subject
    case StatusFilter => f.status
  }

  /** `{ ...prev, [k]: value }`: the chosen filter takes the value and the other two are kept. */
  function WithFilter(f: Filters, k: FilterKind, value: string): (g: Filters)
    ensures Selected(g, k) == value
    ensures forall j :: j != k ==> Selected(g, j) == Selected(f, j)
  {
    match k
    case PriorityFilter => f.(priority := value)
    case SubjectFilter => f.(subject := value)
    case StatusFilter => f.(status := value)
  }

  // -------------------------------------------------------------- new tasks

  /** The JSON body `addTask` posts. */
  datatype Payload = Payload(
    title: string,
    description: string,
    priority: string,
    subject: string,
    dueDate: Option<string>,
    status: string)

  /**
   * The input text is both title and description, the status is "To Do", an
   * empty priority falls back to "medium", and an empty date is sent as null.
   */
  function CreatePayload(text: string, priority: string, subject: string, dueDate: string): (p: Payload)
    ensures p.title == text && p.description == text && p.subject == subject && p.status == "To Do"
    ensures p.priority == (if priority == "" then "medium" else priority)
    ensures p.dueDate.None? <==> dueDate == ""
    ensures p.dueDate.Some? ==> p.dueDate.value == dueDate
  {
    Payload(text, text, if priority != "" then priority else "medium", subject,
            if dueDate != "" then Some(dueDate) else None, "To Do")
  }

  /** The body `updateTaskStatus` patches with. */
  datatype StatusRequest = StatusRequest(id: Id, status: string, order: int)

  class AppState {
    var tasks: seq<Entry>
    var newTask: string
    var priority: string
    var subject: string
    var dueDate: string
    var searchQuery: string
    var sortBy: string
    var sortOrder: string
    var filters: Filters

    constructor ()
      ensures tasks == [] && newTask == "" && priority == "medium" && subject == "general" && dueDate == ""
      ensures searchQuery == "" && sortBy == "createdAt" && sortOrder == "desc" && filters == NoFilters
    {
      tasks := [];
      newTask, priority, subject, dueDate := "", "medium", "general", "";
      searchQuery, sortBy, sortOrder := "", "createdAt", "desc";
      filters := NoFilters;
    }

    /** `fetchTasks`: sends the query built from the state and stores whatever list arrives (`None`: the request threw). */
    method FetchTasks(reply: Option<seq<Entry>>) returns (params: seq<Param>)
      modifies this`tasks
      ensures params == QueryParams(sortBy, sortOrder, searchQuery, filters)
      ensures tasks == if reply.Some? then reply.value else old(tasks)
    {
      params := QueryParams(sortBy, sortOrder, searchQuery, filters);
      if reply.Some? {
        tasks := reply.value;
      }
    }

    /**
     * `addTask`: nothing is sent for a blank input. Otherwise the payload is
     * posted; on success the returned task is put in front of the list and the
     * form is reset, and on failure nothing changes.
     */
    method AddTask(reply: Reply) returns (sent: Option<Payload>)
      modifies this`tasks, this`newTask, this`priority, this`subject, this`dueDate
      ensures sent == if IsBlank(old(newTask)) then None
                      else Some(CreatePayload(old(newTask), old(priority), old(subject), old(dueDate)))
      ensures sent.Some? && reply.Succeeded? ==>
        && tasks == [reply.body] + old(tasks)
        && newTask == "" && priority == "medium" && subject == "general" && dueDate == ""
      ensures sent.None? || reply.Failed? ==>
        && tasks == old(tasks)
        && newTask == old(newTask) && priority == old(priority) && subject == old(subject) && dueDate == old(dueDate)
    {
      if IsBlank(newTask) {
        sent := None;
        return;
      }
      sent := Some(CreatePayload(newTask, priority, subject, dueDate));
      if reply.Succeeded? {
        tasks := [reply.body] + tasks;
        newTask := "";
        priority := "medium";
        subject := "general";
        dueDate := "";
      }
    }

    /** `updateTaskStatus`: patches status and order, then replaces the entries with that id by the reply. */
    method UpdateTaskStatus(taskId: Id, newStatus: string, newOrder: int, reply: Reply) returns (sent: StatusRequest)
      modifies this`tasks
      ensures sent == StatusRequest(taskId, newStatus, newOrder)
      ensures tasks == AfterReplace(old(tasks), taskId, reply)
    {
      sent := StatusRequest(taskId, newStatus, newOrder);
      ReplaceWithReply(taskId, reply);
    }

    /** `toggleTask`: replaces the entries with that id by the reply. */
    method ToggleTask(taskId: Id, reply: Reply)
      modifies this`tasks
      ensures tasks == AfterReplace(old(tasks), taskId, reply)
    {
      ReplaceWithReply(taskId, reply);
    }

    /** `updateTask`: sends the draft, then replaces the entries with that id by the reply. */
    method UpdateTask(taskId: Id, draft: Doc, reply: Reply) returns (sent: Doc)
      modifies this`tasks
      ensures sent == draft
      ensures tasks == AfterReplace(old(tasks), taskId, reply)
    {
      sent := draft;
      ReplaceWithReply(taskId, reply);
    }

    method ReplaceWithReply(taskId: Id, reply: Reply)
      modifies this`tasks
      ensures tasks == AfterReplace(old(tasks), taskId, reply)
    {
      if reply.Succeeded? {
        var next := ReplaceById(tasks, taskId, reply.body);
        if next.Some? {
          tasks := next.value;
        }
      }
    }

    /** `deleteTask`: on success drops every entry with that id. */
    method DeleteTask(taskId: Id, reply: Reply)
      modifies this`tasks
      ensures tasks == AfterDelete(old(tasks), taskId, reply)
    {
      if reply.Succeeded? {
        var next := RemoveById(tasks, taskId);
        if next.Some? {
          tasks := next.value;
        }
      }
    }

    /** `handleFilterChange`: sets one filter and keeps the other two. */
    method HandleFilterChange(k: FilterKind, value: string)
      modifies this`filters
      ensures Selected(filters, k) == value
      ensures forall j :: j != k ==> Selected(filters, j) == Selected(old(filters), j)
    {
      filters := WithFilter(filters, k, value);
    }

    /** "Clear Filters" */
    method ClearFilters()
      modifies this`filters
      ensures filters == NoFilters
    {
      filters := Filters("", "", "");
    }
  }

  /** After a successful delete, no entry has the id and every other entry keeps its multiplicity. */
  lemma AfterDeleteRemoves(ts: seq<Entry>, id: Id)
    requires Null !in ts
    ensures var r := AfterDelete(ts, id, Succeeded(Null));
      && (forall i :: 0 <= i < |r| ==> !HasId(r[i], id))
      && forall e :: !HasId(e, id) ==> multiset(r)[e] == multiset(ts)[e]
  {
    var r := AfterDelete(ts, id, Succeeded(Null));
    forall i | 0 <= i < |r| ensures !HasId(r[i], id) {
      RemoveByIdCounts(ts, id, r[i]);
      assert r[i] in multiset(r);
    }
    forall e | !HasId(e, id) ensures multiset(r)[e] == multiset(ts)[e] {
      RemoveByIdCounts(ts, id, e);
    }
  }
}
