/**
 * The board view (src/components/KanbanBoard.jsx): the task list split into
 * three status columns, and the decision taken when a card is dropped.
 */
module KanbanBoard {
  import opened Wrappers
  import opened TaskSchema

  const ColumnNames: seq<string> := ["To Do", "In Progress", "Completed"]

  /** `task?.status === name`: a null entry belongs to no column. */
  predicate InColumn(e: Entry, name: string) {
    e.Item? && e.doc.task.status == name
  }

  /** `tasks.filter(task => task?.status === name)` */
  function Column(ts: seq<Entry>, name: string): (c: seq<Doc>)
    ensures |c| <= |ts|
    ensures forall d :: d in c <==> Item(d) in ts && d.task.status == name
  {
    if ts == [] then []
    else
      assert ts == [ts[0]] + ts[1..];
      (if InColumn(ts[0], name) then [ts[0].doc] else []) + Column(ts[1..], name)
  }

  /** A column of a concatenation is the concatenation of the columns: the filter keeps list order. */
  lemma {:induction false} ColumnAppend(a: seq<Entry>, b: seq<Entry>, name: string)
    ensures Column(a + b, name) == Column(a, name) + Column(b, name)
  {
    if a == [] {
      assert a + b == b;
    } else {
      assert (a + b)[1..] == a[1..] + b;
      ColumnAppend(a[1..], b, name);
    }
  }

  /** Each document appears in a column as often as it appears in the list, if its status is the column's name, and never otherwise. */
  lemma {:induction false} ColumnCounts(ts: seq<Entry>, name: string, d: Doc)
    ensures multiset(Column(ts, name))[d] == if d.task.status == name then multiset(ts)[Item(d)] else 0
  {
    if ts != [] {
      assert ts == [ts[0]] + ts[1..];
      ColumnCounts(ts[1..], name, d);
    }
  }

  /** The three columns, in display order. */
  datatype Board = Board(toDo: seq<Doc>, inProgress: seq<Doc>, completed: seq<Doc>)

  /** The `columns` object: each column holds exactly the listed documents with its status. */
  function Columns(ts: seq<Entry>): (b: Board)
    ensures forall d :: d in b.toDo <==> Item(d) in ts && d.task.status == "To Do"
    ensures forall d :: d in b.inProgress <==> Item(d) in ts && d.task.status == "In Progress"
    ensures forall d :: d in b.completed <==> Item(d) in ts && d.task.status == "Completed"
  {
    Board(Column(ts, "To Do"), Column(ts, "In Progress"), Column(ts, "Completed"))
  }

  /** No document is in two columns. */
  lemma ColumnsDisjoint(ts: seq<Entry>)
    ensures var b := Columns(ts);
      && (forall d :: d in b.toDo ==> d !in b.inProgress && d !in b.completed)
      && (forall d :: d in b.inProgress ==> d !in b.completed)
  {
  }

  /** An entry that the board shows: a document whose status is one of the three column names. */
  predicate OnBoard(e: Entry) {
    e.Item? && e.doc.task.status in ColumnNames
  }

  /**
   * The columns together hold at most as many cards as the list has entries,
   * and exactly as many when every entry is a document with one of the three
   * statuses.
   */
  lemma {:induction false} ColumnSizes(ts: seq<Entry>)
    ensures var b := Columns(ts);
      |b.toDo| + |b.inProgress| + |b.completed| <= |ts|
    ensures var b := Columns(ts);
      |b.toDo| + |b.inProgress| + |b.completed| == |ts| <==> forall i :: 0 <= i < |ts| ==> OnBoard(ts[i])
  {
    if ts != [] {
      ColumnSizes(ts[1..]);
      if forall i :: 0 <= i < |ts[1..]| ==> OnBoard(ts[1..][i]) {
        if OnBoard(ts[0]) {
          assert forall i :: 0 <= i < |ts| ==> OnBoard(ts[i]) by {
            forall i | 0 <= i < |ts| ensures OnBoard(ts[i]) {
              if i > 0 { assert ts[i] == ts[1..][i - 1]; }
            }
          }
        }
      } else {
        var i :| 0 <= i < |ts[1..]| && !OnBoard(ts[1..][i]);
        assert !OnBoard(ts[i + 1]);
      }
    }
  }

  /** `tasks.find(t => t?._id === id)` */
  function Find(ts: seq<Entry>, id: Id): (r: Option<Doc>)
    ensures r.Some? <==> exists i :: 0 <= i < |ts| && HasId(ts[i], id)
    ensures r.Some? ==> Item(r.value) in ts && r.value.id == id
  {
    if ts == [] then None
    else if HasId(ts[0], id) then Some(ts[0].doc)
    else
      var r := Find(ts[1..], id);
      assert forall i :: 1 <= i < |ts| ==> ts[i] == ts[1..][i - 1];
      assert r.Some? ==> (exists i :: 0 <= i < |ts[1..]| && HasId(ts[1..][i], id)) ==>
                         exists i :: 0 <= i < |ts| && HasId(ts[i], id);
      r
  }

  /** Where a card was picked up or dropped: a column and a position in it. */
  datatype Location = Location(droppableId: string, index: nat)

  /** What the drag-and-drop library reports at the end of a drag. */
  datatype DropResult = DropResult(destination: Option<Location>, source: Location, draggableId: Id)

  /** The one call `onUpdateTaskStatus(id, status, order)` a drop can make. */
  datatype StatusUpdate = StatusUpdate(id: Id, status: string, order: int)

  /**
   * `onDragEnd`: no update for a missing result, a drop outside every column,
   * a drop back onto the same place, or an id that is not in the list;
   * otherwise exactly one update, which moves the dragged task to the
   * destination column with the destination index as its order.
   */
  function OnDragEnd(ts: seq<Entry>, result: Option<DropResult>): (u: Option<StatusUpdate>)
    ensures u.Some? <==>
      && result.Some?
      && result.value.destination.Some?
      && result.value.destination.value != result.value.source
      && exists i :: 0 <= i < |ts| && HasId(ts[i], result.value.draggableId)
    ensures u.Some? ==>
      u.value == StatusUpdate(result.value.draggableId,
                              result.value.destination.value.droppableId,
                              result.value.destination.value.index)
  {
    match result
    case None => None
    case Some(drop) =>
      match drop.destination
      case None => None
      case Some(destination) =>
        if destination.droppableId == drop.source.droppableId && destination.index == drop.source.index then None
        else
          match Find(ts, drop.draggableId)
          case None => None
          case Some(task) => Some(StatusUpdate(task.id, destination.droppableId, destination.index))
  }
}
