/**
 * A board column (components/Column.tsx): the column's dialog state (open
 * flag, selected task, create or edit mode), the handlers that set it, the
 * store action a save or delete dispatches to, and the column's colour.
 */
module ColumnView {
  import opened Types
  import opened TaskModal

  /** The store action a handler calls. */
  datatype StoreCall =
    | NoCall
    | AddCall(title: string, description: string, column: ColumnId)   // addTask(...)
    | UpdateCall(id: string, title: string, description: string)      // updateTask(...)
    | DeleteCall(id: string)                                          // deleteTask(...)

  /** `getColumnColor()`, over the column id as written; any other id falls back to gray. */
  function ColumnColor(id: string): (classes: string)
    ensures id == "inProgress" ==> classes == "border-blue-300 bg-blue-50"
    ensures id == "done" ==> classes == "border-green-300 bg-green-50"
    ensures id != "inProgress" && id != "done" ==> classes == "border-gray-300 bg-gray-50"
  {
    match id
    case "todo" => "border-gray-300 bg-gray-50"
    case "inProgress" => "border-blue-300 bg-blue-50"
    case "done" => "border-green-300 bg-green-50"
    case _ => "border-gray-300 bg-gray-50"
  }

  /** The three columns get three colours, and To Do shares the fallback's. */
  lemma ColumnColors()
    ensures ColumnColor(ColumnName(Todo)) == "border-gray-300 bg-gray-50"
    ensures ColumnColor(ColumnName(InProgress)) == "border-blue-300 bg-blue-50"
    ensures ColumnColor(ColumnName(Done)) == "border-green-300 bg-green-50"
    ensures forall c: ColumnId, d: ColumnId :: c != d ==> ColumnColor(ColumnName(c)) != ColumnColor(ColumnName(d))
  {
  }

  class ColumnPanel {
    const column: Column
    var isModalOpen: bool
    var selectedTask: Option<Task>
    var modalMode: ModalMode

    constructor (column: Column)
      ensures this.column == column
      ensures !isModalOpen && selectedTask == None && modalMode == Create
    {
      this.column := column;
      isModalOpen := false;
      selectedTask := None;
      modalMode := Create;
    }

    /** `handleAddTask`: open the dialog empty, in create mode. */
    method HandleAddTask()
      modifies this
      ensures isModalOpen && selectedTask == None && modalMode == Create
    {
      selectedTask := None;
      modalMode := Create;
      isModalOpen := true;
    }

    /** `handleEditTask(task)`: open the dialog on the task, in edit mode. */
    method HandleEditTask(task: Task)
      modifies this
      ensures isModalOpen && selectedTask == Some(task) && modalMode == Edit
    {
      selectedTask := Some(task);
      modalMode := Edit;
      isModalOpen := true;
    }

    /** The dialog's `onClose`: close it and drop the selection; the mode stays. */
    method HandleClose()
      modifies this
      ensures !isModalOpen && selectedTask == None && modalMode == old(modalMode)
    {
      isModalOpen := false;
      selectedTask := None;
    }

    /** `handleSaveTask(title, description)`: add in create mode, update the selected task in edit mode. */
    method HandleSaveTask(title: string, description: string) returns (call: StoreCall)
      ensures modalMode == Create ==> call == AddCall(title, description, column.id)
      ensures modalMode == Edit && selectedTask.Some? ==>
                call == UpdateCall(selectedTask.value.id, title, description)
      ensures modalMode == Edit && selectedTask.None? ==> call == NoCall
    {
      if modalMode == Create {
        call := AddCall(title, description, column.id);
      } else if selectedTask.Some? {
        call := UpdateCall(selectedTask.value.id, title, description);
      } else {
        call := NoCall;
      }
    }

    /** `handleDeleteTask`: delete the selected task, if there is one. */
    method HandleDeleteTask() returns (call: StoreCall)
      ensures selectedTask.Some? ==> call == DeleteCall(selectedTask.value.id)
      ensures selectedTask.None? ==> call == NoCall
    {
      if selectedTask.Some? {
        call := DeleteCall(selectedTask.value.id);
      } else {
        call := NoCall;
      }
    }

    /** Whether the dialog is given a delete handler: only in edit mode. */
    function HasDeleteHandler(): (r: bool)
      reads this
      ensures r <==> modalMode == Edit
    {
      modalMode == Edit
    }

    /** The dialog as this column renders it: shown while open, with a delete button exactly in edit mode. */
    function Dialog(): (v: Option<ModalView>)
      reads this
      ensures v.Some? <==> isModalOpen
      ensures v.Some? ==> (v.value.showDelete <==> modalMode == Edit)
    {
      Render(isModalOpen, modalMode, HasDeleteHandler())
    }
  }
}
