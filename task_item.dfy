/**
 * One task card (src/components/TaskItem.jsx): the priority colour and the
 * edit-draft state machine (view, edit, save or cancel) with its menu anchor.
 */
module TaskItem {
  import opened Wrappers
  import opened TaskSchema

  /**
   * `getPriorityColor`: high, medium and low map to error, warning and success;
   * every string that is not one of the schema's priorities maps to default.
   */
  function PriorityColor(priority: string): (color: string)
    ensures color == "default" <==> ParsePriority(priority).None?
    ensures ParsePriority(priority) == Some(High) ==> color == "error"
    ensures ParsePriority(priority) == Some(Medium) ==> color == "warning"
    ensures ParsePriority(priority) == Some(Low) ==> color == "success"
  {
    match priority
    case "high" => "error"
    case "medium" => "warning"
    case "low" => "success"
    case _ => "default"
  }

  /** Distinct schema priorities get distinct colours. */
  lemma PriorityColorsDistinct(p: Priority, q: Priority)
    requires p != q
    ensures PriorityColor(PriorityName(p)) != PriorityColor(PriorityName(q))
  {
  }

  /** The call `onUpdate(id, draft)` a save makes. */
  datatype UpdateCall = UpdateCall(id: Id, draft: Doc)

  /** A card. `task` is the prop; the other fields are the component's state. */
  class TaskItemState {
    var task: Doc
    var anchorEl: Option<nat>
    var isEditing: bool
    var editedTask: Doc

    /** The draft starts as the task, not editing, with the menu closed. */
    constructor (task: Doc)
      ensures this.task == task && editedTask == task && !isEditing && anchorEl == None
    {
      this.task := task;
      anchorEl := None;
      isEditing := false;
      editedTask := task;
    }

    /**
     * A re-render with a new task prop: `useState` keeps its first value, so
     * the draft is not refreshed.
     */
    method ReceiveTask(t: Doc)
      modifies this`task
      ensures task == t
    {
      task := t;
    }

    /** `handleMenuClick`: opens the menu on the clicked element. */
    method HandleMenuClick(target: nat)
      modifies this`anchorEl
      ensures anchorEl == Some(target)
    {
      anchorEl := Some(target);
    }

    /** `handleMenuClose` */
    method HandleMenuClose()
      modifies this`anchorEl
      ensures anchorEl == None
    {
      anchorEl := None;
    }

    /** `handleEdit`: enters edit mode and closes the menu; the draft is kept. */
    method HandleEdit()
      modifies this`isEditing, this`anchorEl
      ensures isEditing && anchorEl == None
    {
      isEditing := true;
      HandleMenuClose();
    }

    /** Editing the title field changes only the draft's title. */
    method EditTitle(value: string)
      modifies this`editedTask
      ensures editedTask == old(editedTask).(task := old(editedTask).task.(title := value))
    {
      editedTask := editedTask.(task := editedTask.task.(title := value));
    }

    /** Editing the description field changes only the draft's description. */
    method EditDescription(value: string)
      modifies this`editedTask
      ensures editedTask == old(editedTask).(task := old(editedTask).task.(description := value))
    {
      editedTask := editedTask.(task := editedTask.task.(description := value));
    }

    /** Choosing a priority changes only the draft's priority. */
    method EditPriority(value: string)
      modifies this`editedTask
      ensures editedTask == old(editedTask).(task := old(editedTask).task.(priority := value))
    {
      editedTask := editedTask.(task := editedTask.task.(priority := value));
    }

    /**
     * `handleSave`: calls `onUpdate` with the task's id and the draft, and
     * leaves edit mode only when that call does not throw.
     */
    method HandleSave(updateThrows: bool) returns (call: UpdateCall)
      modifies this`isEditing
      ensures call == UpdateCall(task.id, editedTask)
      ensures isEditing == (old(isEditing) && updateThrows)
    {
      call := UpdateCall(task.id, editedTask);
      if !updateThrows {
        isEditing := false;
      }
    }

    /** `handleCancel`: the draft goes back to the current task and edit mode ends. */
    method HandleCancel()
      modifies this`editedTask, this`isEditing
      ensures editedTask == task && !isEditing
    {
      editedTask := task;
      isEditing := false;
    }

    /** `handleDelete`: asks to delete the card's own task. */
    method HandleDelete() returns (id: Id)
      ensures id == task.id
    {
      id := task.id;
    }

    /** The checkbox asks to toggle the card's own task. */
    method HandleToggle() returns (id: Id)
      ensures id == task.id
    {
      id := task.id;
    }
  }

  /** Edit, change the title, then cancel: the draft is the task again and the card is back in view mode. */
  method EditThenCancel(card: TaskItemState, title: string)
    modifies card
    ensures card.editedTask == card.task && !card.isEditing && card.anchorEl == None
    ensures card.task == old(card.task)
  {
    card.HandleEdit();
    card.EditTitle(title);
    card.HandleCancel();
  }
}
