/**
 * The board's drag handling (components/Board.tsx): a drag start looks the
 * dragged task up to show it as the drag overlay, and a drag end turns
 * `(active.id, over?.id)` into either no move or exactly one
 * `moveTask(active.id, over.id)` on the store.
 */
module DragDrop {
  import opened Types
  import opened Seqs
  import opened BoardStore

  /** What a drag end asks of the store. */
  datatype DropDecision = NoMove | Move(taskId: string, column: ColumnId)

  /** The column among `columns` whose id is written `name`, if any (`validColumnIds.includes(name)`). */
  function FindColumn(columns: seq<Column>, name: string): (r: Option<ColumnId>)
    ensures r.Some? <==> exists i :: 0 <= i < |columns| && ColumnName(columns[i].id) == name
    ensures r.Some? ==> ColumnName(r.value) == name
  {
    if |columns| == 0 then None
    else if ColumnName(columns[0].id) == name then Some(columns[0].id)
    else FindColumn(columns[1..], name)
  }

  /** The drop rule of `handleDragEnd`. */
  function ResolveDrop(columns: seq<Column>, activeId: string, overId: Option<string>): (d: DropDecision)
    ensures overId.None? ==> d == NoMove
    ensures overId.Some? && FindColumn(columns, overId.value).None? ==> d == NoMove
    ensures overId.Some? && FindColumn(columns, overId.value).Some? ==>
              d == Move(activeId, FindColumn(columns, overId.value).value)
    ensures d.Move? ==> d.taskId == activeId && overId.Some? && ColumnName(d.column) == overId.value
  {
    match overId
    case None => NoMove
    case Some(target) =>
      match FindColumn(columns, target)
      case None => NoMove
      case Some(c) => Move(activeId, c)
  }

  /**
   * On the board's columns, a drop moves exactly when the target is one of
   * the three column ids; a task's own column counts (there is no
   * same-column check).
   */
  lemma DropOnBoardColumns(activeId: string, overId: string)
    ensures ResolveDrop(DefaultColumns, activeId, Some(overId)).Move?
            <==> overId in {"todo", "inProgress", "done"}
    ensures forall c: ColumnId :: ColumnName(c) == overId ==>
              ResolveDrop(DefaultColumns, activeId, Some(overId)) == Move(activeId, c)
  {
    assert ColumnName(DefaultColumns[0].id) == "todo";
    assert ColumnName(DefaultColumns[1].id) == "inProgress";
    assert ColumnName(DefaultColumns[2].id) == "done";
    forall c: ColumnId | ColumnName(c) == overId
      ensures ResolveDrop(DefaultColumns, activeId, Some(overId)) == Move(activeId, c)
    {
      var d := ResolveDrop(DefaultColumns, activeId, Some(overId));
      assert d.Move?;
      ColumnNameInjective(c, d.column);
    }
  }

  /** `columns.flatMap(col => getTasksByColumn(col.id))`. */
  function AllColumnTasks(columns: seq<Column>, tasks: seq<Task>): (r: seq<Task>)
    ensures forall t :: t in r ==> t in tasks
  {
    if |columns| == 0 then []
    else TasksByColumn(tasks, columns[0].id) + AllColumnTasks(columns[1..], tasks)
  }

  /** Over the board's three columns, the flattened list is the three column lists in board order. */
  lemma AllColumnTasksUnfold(tasks: seq<Task>)
    ensures AllColumnTasks(DefaultColumns, tasks)
            == TasksByColumn(tasks, Todo) + TasksByColumn(tasks, InProgress) + TasksByColumn(tasks, Done)
  {
    var rest := DefaultColumns[1..];
    assert rest[0].id == InProgress && rest[1..][0].id == Done && rest[1..][1..] == [];
    assert AllColumnTasks(rest[1..], tasks) == TasksByColumn(tasks, Done);
    assert AllColumnTasks(rest, tasks) == TasksByColumn(tasks, InProgress) + TasksByColumn(tasks, Done);
  }

  /** The flattened list holds exactly the store's tasks whose column string names a column. */
  lemma AllColumnTasksMembers(tasks: seq<Task>)
    ensures forall t :: t in AllColumnTasks(DefaultColumns, tasks) <==> t in tasks && IsColumnName(t.column)
  {
    AllColumnTasksUnfold(tasks);
  }

  /**
   * Over the board's three columns the flattened list never holds more than
   * the store's list, and it is the whole list (up to order) exactly when
   * every task's column is one of the three ids.
   */
  lemma AllColumnTasksComplete(tasks: seq<Task>)
    ensures multiset(AllColumnTasks(DefaultColumns, tasks)) <= multiset(tasks)
    ensures multiset(AllColumnTasks(DefaultColumns, tasks)) == multiset(tasks)
            <==> forall i :: 0 <= i < |tasks| ==> IsColumnName(tasks[i].column)
  {
    AllColumnTasksUnfold(tasks);
    ColumnsPartition(tasks);
    var all := AllColumnTasks(DefaultColumns, tasks);
    if multiset(all) == multiset(tasks) {
      assert |all| == |multiset(all)| == |tasks|;
    }
  }

  /** The task a drag start shows: the first task with the id among all columns' tasks. */
  function DraggedTask(columns: seq<Column>, tasks: seq<Task>, activeId: string): (r: Option<Task>)
    ensures r.Some? ==> r.value in tasks && r.value.id == activeId
  {
    Find(AllColumnTasks(columns, tasks), HasId(activeId))
  }

  /**
   * With the board's columns, a drag start finds a task exactly when the
   * store holds one with the id whose column string names a column.
   */
  lemma DraggedTaskFound(tasks: seq<Task>, activeId: string)
    ensures DraggedTask(DefaultColumns, tasks, activeId).Some?
            <==> exists i :: 0 <= i < |tasks| && tasks[i].id == activeId && IsColumnName(tasks[i].column)
  {
    AllColumnTasksMembers(tasks);
    var all := AllColumnTasks(DefaultColumns, tasks);
    if i :| 0 <= i < |tasks| && tasks[i].id == activeId && IsColumnName(tasks[i].column) {
      assert tasks[i] in all;
      assert HasId(activeId)(tasks[i]);
    }
    var r := DraggedTask(DefaultColumns, tasks, activeId);
    if r.Some? {
      var i :| 0 <= i < |tasks| && tasks[i] == r.value;
    }
  }

  /**
   * A task whose column string names no column (the API passes any
   * status through) is in none of the board's columns and cannot be
   * picked up by a drag.
   */
  lemma UnknownColumnHidden(tasks: seq<Task>, i: nat)
    requires i < |tasks| && !IsColumnName(tasks[i].column)
    ensures tasks[i] !in AllColumnTasks(DefaultColumns, tasks)
    ensures forall c: ColumnId :: tasks[i] !in TasksByColumn(tasks, c)
    ensures (forall j :: 0 <= j < |tasks| && j != i ==> tasks[j].id != tasks[i].id) ==>
              DraggedTask(DefaultColumns, tasks, tasks[i].id).None?
  {
    AllColumnTasksMembers(tasks);
    DraggedTaskFound(tasks, tasks[i].id);
  }

  class BoardView {
    /** The task shown in the drag overlay. */
    var activeTask: Option<Task>

    constructor ()
      ensures activeTask == None
    {
      activeTask := None;
    }

    /** `handleDragStart`: show the dragged task; keep the previous one when no task has the id. */
    method HandleDragStart(store: Store, activeId: string)
      modifies this
      ensures var found := DraggedTask(store.columns, store.tasks, activeId);
              activeTask == if found.Some? then found else old(activeTask)
    {
      var task := DraggedTask(store.columns, store.tasks, activeId);
      if task.Some? {
        activeTask := task;
      }
    }

    /**
     * `handleDragEnd`: always clear the overlay, then move the task when the
     * drop target is a column. `ok` is the outcome of the move's request.
     */
    method HandleDragEnd(store: Store, activeId: string, overId: Option<string>, ok: bool)
      returns (d: DropDecision)
      requires store.Valid()
      modifies this, store
      ensures activeTask == None
      ensures d == ResolveDrop(DefaultColumns, activeId, overId)
      ensures store.Valid() && store.isLoading == old(store.isLoading)
      ensures d.NoMove? ==> store.tasks == old(store.tasks) && store.error == old(store.error)
      ensures d.Move? && ok ==>
                store.tasks == MoveColumn(old(store.tasks), activeId, d.column)
                && store.error == old(store.error)
      ensures d.Move? && !ok ==> store.tasks == old(store.tasks) && store.error == Some(MoveFailed)
    {
      activeTask := None;
      d := ResolveDrop(store.columns, activeId, overId);
      if d.Move? {
        var _ := store.MoveTask(d.taskId, d.column, ok);
      }
    }
  }
}
