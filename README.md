# CollabTask task model

A Dafny model of CollabTask, a task-tracking web application: an Express
server that keeps task documents in a MongoDB collection, and a React client
that lists, filters, edits and drags those tasks across a three-column board.

The model covers:

- **The task schema** (`TaskSchema`): the closed lists of priorities, subjects
  and statuses as datatypes with their names and a parser that inverts them;
  the required title and description; the defaults for fields left undefined;
  and validation as the set of failing schema paths.
- **The route handlers** (`Server`): a class `TaskStore` holding a
  `map<Id, Task>` and a fresh-identifier counter, with one method per handler
  (list, create, full update, status patch, toggle, delete) returning the status
  code and body sent. The query document and the sort directive are built by
  conditional assignment, as the handler builds them. The per-task effect of
  each update is a function with its own lemmas.
- **The application component** (`App`): a class with the component's state
  fields, whose handlers send a request and reconcile the task list with the
  reply. A new task is put in front. Updated tasks are replaced by id. Deleted
  tasks are filtered out. The reply is a parameter.
- **The board** (`KanbanBoard`): the three status columns as filters, and the
  drop decision, which yields no update or exactly one.
- **A task card** (`TaskItem`): the priority colour and the edit-draft state
  machine.
- **The standalone home page and its input box** (`Home`, `TaskInput`).
- **Client against server** (`ClientServer`): the query string the client sends,
  read back as the server's listing parameters. The payload the client posts,
  read as a create body. The draft a card saves, read as a full update. A drop
  on the board carried through to the store.

Modelling choices:

- Document identifiers are natural numbers. The store hands out `nextId`, and
  its invariant keeps every stored id below it.
- Priority, subject and status are kept in a stored task as strings. The
  updates go through `findByIdAndUpdate`, which does not run the schema's
  validators, so a stored document can hold any string there. The closed
  datatypes are used to say which strings are listed.
- In an update body, a field that is undefined leaves the stored value as it
  is. That is how Mongoose treats `undefined` keys of an update.
- The toggle handler saves the loaded document with `save`, which runs the
  schema's validators on the whole document. The model therefore answers 500
  when the document does not validate. An unknown id answers 500 too, because
  the handler reads a field of the null result.
- A client task list holds `Entry` values, a document or JSON null. A full
  update of an unknown id answers 200 with a null body, and the client writes
  that null into its list in place of the entries with that id. Later `map` or
  `filter` calls over a list holding null throw at `task._id`. The handler
  catches the error, so the list stays as it was. The model states this.
- The server's search is a case-insensitive substring test on title or
  description.
- Toggling keeps the status, and a status patch that sends only an order sets
  `completed` to false. So nothing keeps `completed` true exactly when the
  status is "Completed". `Server.FlipBreaksConsistency` and
  `Server.OrderOnlyPatchClearsCompleted` state this.
- The new-task form offers the subject "all", which the schema does not list.
  `ClientServer.SubjectAllIsRejected` shows that such a post is rejected.

## Model

| member | source | states |
|---|---|---|
| `TaskSchema.ParsePriority` | server/models/Task.js:7 | a string is accepted as a priority exactly when it is the name of one of low, medium, high, and the result is that priority |
| `TaskSchema.ParseSubject` | server/models/Task.js:10-18 | a string is accepted as a subject exactly when it is one of the eleven listed names, and the result names it |
| `TaskSchema.ParseStatus` | server/models/Task.js:19-23 | a string is accepted as a status exactly when it is "To Do", "In Progress" or "Completed", and the result names it |
| `TaskSchema.Violations` | server/models/Task.js:4-23 | the title or description path fails exactly when that text is empty; the priority, subject or status path fails exactly when the stored string is no listed value's name |
| `TaskSchema.Validates` | server/models/Task.js:4-23 | a task passes exactly when both required texts are non-empty and each enumerated field names a listed value |
| `TaskSchema.Instantiate` | server/models/Task.js:3-27 | an undefined completed, priority, category, subject, status and order take false, "medium", "general", "general", "To Do" and 0; an undefined due date stays absent |
| `TaskSchema.ValidatesIff` | server/models/Task.js:4-23 | a task validates exactly when title and description are non-empty and priority, subject and status are listed values |
| `TaskSchema.ValidationIgnoresCompletedAndOrder` | server/models/Task.js:6-24 | the completion flag and the order never make validation fail |
| `TaskSchema.DefaultsAreListed` | server/models/Task.js:7-23 | the default priority, subject and status are members of their own lists |
| `TaskSchema.InstantiateValidatesIff` | server/models/Task.js:3-27 | a built document validates exactly when title and description are given and non-empty and each given enumerated field is listed; undefined ones never fail |
| `TaskSchema.MinimalTaskDefaults` | server/models/Task.js:3-27 | a task given only title and description is not completed, medium, has no due date, general, general, To Do, order 0, and validates exactly when both texts are non-empty |
| `TaskSchema.Build` | server/models/Task.js:3-27 | building succeeds exactly when the document validates and then yields it; otherwise it fails with the non-empty set of failing paths |
| `Text.BlankIffAllWhitespace` | src/App.jsx:83 | a string trims to "" exactly when every character is ECMAScript whitespace or a line terminator |
| `Text.ContainsIgnoringCaseOfContains` | server/server.js:77-78 | an exact substring occurrence is also found by the case-insensitive search |
| `Text.ContainsIgnoringCaseOfLower` | server/server.js:77-78 | the case of the searched text does not change the search outcome |
| `Server.NoFiltersSelectAll` | server/server.js:69-74 | with no filter and no search given, every stored task is selected |
| `Server.BuildQuery` | server/server.js:69-80 | each of subject, status, priority is put in the query exactly when non-empty, `$or` exactly when search is non-empty, and the query matches a task exactly when the request selects it |
| `Server.BuildSort` | server/server.js:60-84 | the sort field is sortBy or "createdAt"; the direction is descending exactly when sortOrder is absent or "desc", ascending for any other value |
| `Server.CreateFields` | server/server.js:97-105 | title and description are passed as sent; priority, category, subject and status are the sent value when non-empty, else "medium", "general", "general", "To Do"; the due date is set exactly when one is sent; completed and order are left to the schema |
| `Server.CreateFillsDefaults` | server/server.js:97-105 | a created document takes a missing or empty priority, category, subject and status as "medium", "general", "general", "To Do", a null due date unless one is given, completed false and order 0 |
| `Server.CreateAcceptedIff` | server/server.js:97-113 | a create validates exactly when title and description are non-empty and every non-empty priority, subject and status is listed |
| `Server.ApplyUpdate` | server/server.js:120-133 | a full update never changes the order |
| `Server.ApplyUpdateIdempotent` | server/server.js:120-133 | sending the same full update twice stores the same task as sending it once |
| `Server.FullUpdateOverwrites` | server/server.js:120-133 | a body defining every field stores exactly those fields, whatever was stored, keeping the order |
| `Server.ApplyStatusPatch` | server/server.js:146-154 | completed becomes true exactly when the new status is "Completed"; status and order take the sent values; nothing else changes |
| `Server.StatusPatchMakesConsistent` | server/server.js:148-152 | a patch naming a status leaves completed true exactly when the status is "Completed" |
| `Server.OrderOnlyPatchClearsCompleted` | server/server.js:143-152 | a patch sending only an order clears completed and keeps the status |
| `Server.Flip` | server/server.js:172 | toggling negates completed and keeps every other field |
| `Server.FlipInvolution` | server/server.js:172 | toggling twice restores the task |
| `Server.FlipKeepsValidation` | server/server.js:171-173 | toggling does not change which validators fail |
| `Server.FlipBreaksConsistency` | server/server.js:172 | toggling a task whose completion agrees with its status makes them disagree |
| `Server.TaskStore.constructor` | server/models/Task.js:29 | the store starts empty and its identifier invariant holds |
| `Server.TaskStore.List` | server/server.js:58-91 | answers 200 with exactly the stored documents the request selects, with the sort directive as asked |
| `Server.TaskStore.Create` | server/server.js:94-115 | a valid document is stored under a fresh id, the store grows by one, and 201 returns it; an invalid one answers 400 with the failing paths and stores nothing |
| `Server.TaskStore.Update` | server/server.js:118-138 | a known id is updated and returned; an unknown id answers 200 with a null body and changes nothing |
| `Server.TaskStore.PatchStatus` | server/server.js:141-166 | a known id is patched and returned; an unknown id answers 404 "Task not found" and changes nothing |
| `Server.TaskStore.Toggle` | server/server.js:169-178 | a known, valid document is flipped and returned; an unknown id or a document that fails validation answers 500 and changes nothing |
| `Server.TaskStore.Delete` | server/server.js:181-188 | the id is removed, every other task is kept, and the reply is always "Task deleted" |
| `Server.ToggleTwice` | server/server.js:169-178 | two toggles of one id leave the store as it was and answer with the same code |
| `Server.DeleteTwice` | server/server.js:181-188 | deleting twice removes the id and confirms both times |
| `Server.CreateThenDelete` | server/server.js:94-188 | a create followed by a delete of the created id leaves the store as it was |
| `KanbanBoard.Column` | src/components/KanbanBoard.jsx:6-10 | a column holds exactly the documents in the list whose status is the column name, and never more cards than the list has entries |
| `KanbanBoard.ColumnAppend` | src/components/KanbanBoard.jsx:6-10 | the column of a concatenation is the concatenation of the columns, so cards stay in list order |
| `KanbanBoard.ColumnCounts` | src/components/KanbanBoard.jsx:6-10 | a document appears in a column as often as in the list when its status is the column's, otherwise never |
| `KanbanBoard.Columns` | src/components/KanbanBoard.jsx:6-10 | each of the three columns holds exactly the listed documents whose status is its name |
| `KanbanBoard.ColumnsDisjoint` | src/components/KanbanBoard.jsx:6-10 | no document is in two columns |
| `KanbanBoard.ColumnSizes` | src/components/KanbanBoard.jsx:6-10 | the three columns hold at most as many cards as the list has entries, and exactly as many when every entry is a document with one of the three statuses |
| `KanbanBoard.Find` | src/components/KanbanBoard.jsx:29 | finds a document exactly when some non-null entry has the id, and the one found is in the list with that id |
| `KanbanBoard.OnDragEnd` | src/components/KanbanBoard.jsx:12-37 | an update is issued exactly when there is a result, a destination other than the source, and the dragged id is in the list; it is the dragged id with the destination column and index |
| `App.ReplaceById` | src/App.jsx:141-143 | mapping fails exactly when the list holds null; otherwise the length is kept, each entry with the id is replaced and every other entry is kept in place |
| `App.RemoveById` | src/App.jsx:157 | filtering fails exactly when the list holds null, and never lengthens it |
| `App.RemoveByIdCounts` | src/App.jsx:157 | filtering drops every entry with the id and keeps every other entry as often as it occurred |
| `App.RemoveByIdAppend` | src/App.jsx:157 | filtering distributes over concatenation, so the remaining entries keep their order |
| `App.RemoveAbsentId` | src/App.jsx:157 | filtering out an id that no entry has leaves the list unchanged |
| `App.AfterReplace` | src/App.jsx:139-143 | the length is kept; after a successful reply each entry with the id holds the reply and every other entry is unchanged; a failed reply or a list holding null leaves the list as it was |
| `App.AfterDelete` | src/App.jsx:156-157 | the list never grows; a failed reply or a list holding null leaves it as it was |
| `App.AppState.ReplaceWithReply` | src/App.jsx:170-175 | the task list becomes the list reconciled with the reply by id, as the status, toggle and full-update handlers do |
| `App.AfterDeleteRemoves` | src/App.jsx:156-157 | after a successful delete no entry has the id and every other entry keeps its multiplicity |
| `App.QueryParams` | src/App.jsx:66-73 | the parameters start with sortBy, sortOrder and search |
| `App.QueryParamsLookup` | src/App.jsx:66-73 | read back by key, the parameters carry sortBy, sortOrder and search always, and each filter exactly when it is non-empty |
| `App.WithFilter` | src/App.jsx:202-207 | the chosen filter takes the value and the other two are kept |
| `App.CreatePayload` | src/App.jsx:99-106 | the input is title and description, status "To Do", an empty priority becomes "medium", the subject is sent as chosen, and an empty date is sent as null |
| `App.AppState.constructor` | src/App.jsx:26-40 | the initial state: no tasks, empty input, medium, general, no date, no search, createdAt descending, no filters |
| `App.AppState.FetchTasks` | src/App.jsx:64-80 | sends the parameters built from the state and keeps the received list, or the old one when the request throws |
| `App.AppState.AddTask` | src/App.jsx:82-127 | a blank input sends nothing and changes nothing; otherwise the payload is sent, and on success the reply heads the list and the form resets to "", "medium", "general", ""; on failure nothing changes |
| `App.AppState.UpdateTaskStatus` | src/App.jsx:129-148 | sends the id, status and order, and reconciles the list by replacing the entries with that id |
| `App.AppState.ToggleTask` | src/App.jsx:164-179 | reconciles the list by replacing the entries with that id |
| `App.AppState.UpdateTask` | src/App.jsx:181-200 | sends the draft and reconciles the list by replacing the entries with that id |
| `App.AppState.DeleteTask` | src/App.jsx:150-162 | reconciles the list by filtering out the entries with that id on success |
| `App.AppState.HandleFilterChange` | src/App.jsx:202-207 | sets one filter and keeps the other two |
| `App.AppState.ClearFilters` | src/App.jsx:440 | sets all three filters to "" |
| `TaskItem.PriorityColor` | src/components/TaskItem.jsx:57-64 | high, medium, low give error, warning, success, and the colour is "default" exactly for strings that are not schema priorities |
| `TaskItem.PriorityColorsDistinct` | src/components/TaskItem.jsx:57-64 | different schema priorities get different colours |
| `TaskItem.TaskItemState.constructor` | src/components/TaskItem.jsx:22-24 | the draft starts as the task, not editing, menu closed |
| `TaskItem.TaskItemState.ReceiveTask` | src/components/TaskItem.jsx:24 | a new task prop does not refresh the draft |
| `TaskItem.TaskItemState.HandleMenuClick` | src/components/TaskItem.jsx:26-28 | the menu anchors on the clicked element |
| `TaskItem.TaskItemState.HandleMenuClose` | src/components/TaskItem.jsx:30-32 | the menu closes |
| `TaskItem.TaskItemState.HandleEdit` | src/components/TaskItem.jsx:34-37 | edit mode is entered and the menu closes |
| `TaskItem.TaskItemState.EditTitle` | src/components/TaskItem.jsx:92 | only the draft's title changes |
| `TaskItem.TaskItemState.EditDescription` | src/components/TaskItem.jsx:99 | only the draft's description changes |
| `TaskItem.TaskItemState.EditPriority` | src/components/TaskItem.jsx:110 | only the draft's priority changes |
| `TaskItem.TaskItemState.HandleSave` | src/components/TaskItem.jsx:39-46 | calls the update with the task's id and the draft, and leaves edit mode only when the call does not throw |
| `TaskItem.TaskItemState.HandleCancel` | src/components/TaskItem.jsx:48-51 | the draft is reset to the task and edit mode ends |
| `TaskItem.TaskItemState.HandleDelete` | src/components/TaskItem.jsx:53-55 | asks to delete the card's own id |
| `TaskItem.TaskItemState.HandleToggle` | src/components/TaskItem.jsx:82 | asks to toggle the card's own id |
| `TaskItem.EditThenCancel` | src/components/TaskItem.jsx:34-51 | edit, change, cancel returns the card to view mode with the draft equal to the task |
| `TaskInput.TaskInputState.constructor` | src/components/TaskInput.jsx:5 | the box starts empty |
| `TaskInput.TaskInputState.HandleAdd` | src/components/TaskInput.jsx:7-12 | blank text calls nothing and is kept; other text is passed once, untrimmed, and the box is cleared |
| `TaskInput.TaskInputState.HandleChange` | src/components/TaskInput.jsx:21 | the text becomes the field's value |
| `Home.Without` | src/pages/Home.jsx:28 | the removed element no longer occurs, and the list never grows |
| `Home.WithoutCounts` | src/pages/Home.jsx:28 | every other element keeps its multiplicity |
| `Home.WithoutAppend` | src/pages/Home.jsx:28 | removal distributes over concatenation, so the rest keep their order |
| `Home.WithoutAbsent` | src/pages/Home.jsx:28 | removing an element that is not present leaves the list unchanged |
| `Home.HomeState.constructor` | src/pages/Home.jsx:7 | the page starts with no tasks |
| `Home.HomeState.Load` | src/pages/Home.jsx:9-21 | a list that arrives replaces the tasks; a failed fetch keeps them |
| `Home.HomeState.AddTask` | src/pages/Home.jsx:23-25 | the new element is appended: one longer, earlier elements unchanged |
| `Home.HomeState.DeleteTask` | src/pages/Home.jsx:27-29 | every element equal to the given one is removed |
| `Home.AddFromInput` | src/pages/Home.jsx:37 | pressing Add appends the untrimmed text and clears the box, or does nothing for blank text |
| `ClientServer.FetchSelectsFilteredTasks` | src/App.jsx:66-74 | the server selects exactly the tasks agreeing with each non-empty client filter and containing a non-empty search ignoring case, and asks the store to sort by the client's key, descending exactly for "desc" |
| `ClientServer.AddedTaskIsStored` | src/App.jsx:99-106 | a non-blank input with a listed or empty priority and subject is accepted and stored as "To Do", not completed, category "general", order 0, with the input as title and description |
| `ClientServer.SubjectAllIsRejected` | src/App.jsx:250 | posting with the form's subject "all" fails validation on the subject path |
| `ClientServer.SavedDraftIsStored` | src/components/TaskItem.jsx:41 | saving a draft stores all of its fields except the order, which keeps the stored value |
| `ClientServer.DropOnBoard` | src/components/KanbanBoard.jsx:32-36 | a drop changes at most the dragged task in the store, which takes the destination column and index and is completed exactly in "Completed"; no update leaves the store unchanged |

## Left out

- Server.TaskStore.List: returns the selected documents as a set. The order of the array is MongoDB's sort, including where a null due date goes, and is not modelled. The model states only the sort directive handed to the store.
- Home.Without: compares by value. The page's `!==` compares fetched objects by reference. The two agree for the strings the input box adds and for documents with distinct ids.
- KanbanBoard.Find: does not state that the first matching entry is the one returned. Only its id is used, and that id equals the dragged id.
- The case-insensitive search folds ASCII letters only. Patterns holding regular-expression metacharacters are outside the model, whose search is a plain substring test.
- HTTP plumbing is left out: CORS, the error and logging middleware, the root and health routes, and `app.listen`. They are configuration, logging and a clock read.
- The MongoDB connections and the test task saved at start-up are left out. They are I/O.
- Store failures are left out: connectivity errors, and cast errors such as an invalid date, which answer 500 or 400. The model covers only the failures the handler code itself runs into.
- Non-string body values are left out. Mongoose casts numbers and booleans to strings and rejects the rest with a cast error. Every field of a model body is a string or absent.
- Mongoose's error message text is not modelled. A 400 reply carries the set of failing schema paths instead.
- Timestamps (`createdAt`, `updatedAt`) and the ObjectId format are left out. Ids are natural numbers handed out in order.
- Dates are left out: parsing a due date on the server, and `toISOString` on the client, which also throws for an invalid date. A due date is carried as its text.
- Repeated query keys are left out. Express would read them as arrays, and the client never sends one.
- `checkTimeForReminder` and `showReminder` are left out. They read the wall clock and only log.
- Interleavings of the asynchronous handlers and stale captured lists are left out. Each handler is one atomic step.
- The `useEffect` that refetches on every change of sort, search or filters is left out. So are the form's plain `onChange` setters and the view-mode and filter-panel toggles. They are direct assignments or rendering.
- `fetchTasks` stores any JSON body without checking the status. The model's reply is a list or nothing, so a non-array error body is not represented.
- Rendering and styling are left out: JSX, MUI, and the drag-and-drop library's mechanics. `src/components/LateNightReminder.jsx`, `src/components/TaskList.jsx`, `src/main.jsx` and `vite.config.js` are pure rendering, bootstrap or build configuration.
- The home page fetches from a placeholder address. Only the effect of a list arriving is modelled.
