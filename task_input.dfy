/** The text box of the standalone home page (src/components/TaskInput.jsx). */
module TaskInput {
  import opened Wrappers
  import opened Text

  class TaskInputState {
    var task: string

    constructor ()
      ensures task == ""
    {
      task := "";
    }

    /**
     * `handleAdd`: a blank text calls nothing and is kept; any other text is
     * passed to `onAdd` once, untrimmed, and the box is cleared.
     */
    method HandleAdd() returns (added: Option<string>)
      modifies this
      ensures IsBlank(old(task)) ==> added == None && task == old(task)
      ensures !IsBlank(old(task)) ==> added == Some(old(task)) && task == ""
    {
      if IsBlank(task) {
        added := None;
      } else {
        added := Some(task);
        task := "";
      }
    }

    /** The change handler: the text becomes the field's value. */
    method HandleChange(value: string)
      modifies this
      ensures task == value
    {
      task := value;
    }
  }
}
