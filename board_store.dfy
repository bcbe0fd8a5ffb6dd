/**
 * The client-side board store (stores/boardStore.ts): the task list, the
 * fixed column list, a loading flag and an error message, and the actions
 * that turn the outcome of a request to the task API into a change of the
 * list. The list transforms the actions apply are functions; the store is
 * a class whose methods change its fields.
 *
 * Every request-driven action changes state once before its first `await`,
 * and at most once more when the request settles. A successful move
 * changes nothing at that point. An action is modelled as a `Begin` step
 * (what happens before the request), a `Finish` step applied when the
 * request settles by success or failure, and the two in sequence under the
 * action's own name.
 */
module BoardStore {
  import opened Types
  import opened Seqs

  /** The three columns, in display order. */
  const DefaultColumns: seq<Column> :=
    [Column(Todo, "To Do"), Column(InProgress, "In Progress"), Column(Done, "Done")]

  /** The board shows the three columns in board order, each under its own title. */
  lemma DefaultColumnsInOrder()
    ensures |DefaultColumns| == 3
    ensures forall i :: 0 <= i < 3 ==> IsColumnName(ColumnName(DefaultColumns[i].id))
    ensures ColumnName(DefaultColumns[0].id) == "todo" && DefaultColumns[0].title == "To Do"
    ensures ColumnName(DefaultColumns[1].id) == "inProgress" && DefaultColumns[1].title == "In Progress"
    ensures ColumnName(DefaultColumns[2].id) == "done" && DefaultColumns[2].title == "Done"
    ensures forall i, j :: 0 <= i < j < 3 ==> DefaultColumns[i].id != DefaultColumns[j].id
  {
  }

  const LoadFailed: string := "Failed to load tasks"
  const AddFailed: string := "Failed to add task"
  const UpdateFailed: string := "Failed to update task"
  const DeleteFailed: string := "Failed to delete task"
  const MoveFailed: string := "Failed to move task"

  /** The request an action sends to the task API. */
  datatype Request =
    | ListTasks                                          // GET /api/tasks
    | CreateTask(title: string, description: string,
                 column: ColumnId, createdAt: int)       // POST /api/tasks
    | UpdateText(id: string, title: string,
                 description: string)                    // PUT /api/tasks/{id}
    | UpdateColumn(id: string, column: ColumnId)         // PUT /api/tasks/{id}
    | DeleteTask(id: string)                             // DELETE /api/tasks/{id}

  /** `tasks.filter(task => task.column === c)`. */
  function TasksByColumn(tasks: seq<Task>, c: ColumnId): (r: seq<Task>)
    ensures forall t :: t in r <==> t in tasks && t.column == ColumnName(c)
  {
    Filter(tasks, InColumn(c))
  }

  /** A column's tasks keep their relative order in the list. */
  lemma TasksByColumnAppend(a: seq<Task>, b: seq<Task>, c: ColumnId)
    ensures TasksByColumn(a + b, c) == TasksByColumn(a, c) + TasksByColumn(b, c)
  {
    FilterAppend(a, b, InColumn(c));
  }

  /** The predicate `task => ...` of a task whose column string names no column. */
  function InNoColumn(): Task -> bool
  {
    (t: Task) => !IsColumnName(t.column)
  }

  /** Every task is in exactly one of the three columns' lists or has a column string naming none. */
  lemma {:induction false} ColumnsSplit(tasks: seq<Task>)
    ensures multiset(TasksByColumn(tasks, Todo)) + multiset(TasksByColumn(tasks, InProgress))
            + multiset(TasksByColumn(tasks, Done)) + multiset(Filter(tasks, InNoColumn()))
            == multiset(tasks)
  {
    if |tasks| > 0 {
      var x, rest := tasks[0], tasks[1..];
      ColumnsSplit(rest);
      assert tasks == [x] + rest;
      assert multiset(tasks) == multiset{x} + multiset(rest);
      FilterCons(tasks, InColumn(Todo));
      FilterCons(tasks, InColumn(InProgress));
      FilterCons(tasks, InColumn(Done));
      FilterCons(tasks, InNoColumn());
    }
  }

  /**
   * The three columns' task lists never hold more than the whole list, and
   * they partition it exactly when every task's column is one of the three
   * ids; a task with any other column string is shown in no column.
   */
  lemma ColumnsPartition(tasks: seq<Task>)
    ensures multiset(TasksByColumn(tasks, Todo)) + multiset(TasksByColumn(tasks, InProgress))
            + multiset(TasksByColumn(tasks, Done)) <= multiset(tasks)
    ensures |TasksByColumn(tasks, Todo)| + |TasksByColumn(tasks, InProgress)|
            + |TasksByColumn(tasks, Done)| == |tasks|
            <==> forall i :: 0 <= i < |tasks| ==> IsColumnName(tasks[i].column)
    ensures (forall i :: 0 <= i < |tasks| ==> IsColumnName(tasks[i].column)) ==>
              multiset(TasksByColumn(tasks, Todo)) + multiset(TasksByColumn(tasks, InProgress))
              + multiset(TasksByColumn(tasks, Done)) == multiset(tasks)
  {
    ColumnsSplit(tasks);
    FilterEmptyIff(tasks, InNoColumn());
    var todo, progress, done := TasksByColumn(tasks, Todo), TasksByColumn(tasks, InProgress), TasksByColumn(tasks, Done);
    var none := Filter(tasks, InNoColumn());
    assert |multiset(todo) + multiset(progress) + multiset(done) + multiset(none)| == |tasks|;
    assert |multiset(todo) + multiset(progress) + multiset(done)| == |todo| + |progress| + |done|;
  }

  /** `tasks.map(task => task.id === id ? replacement : task)`. */
  function ReplaceById(tasks: seq<Task>, id: string, replacement: Task): (r: seq<Task>)
    ensures |r| == |tasks|
    ensures forall i :: 0 <= i < |tasks| ==>
              r[i] == if tasks[i].id == id then replacement else tasks[i]
  {
    if |tasks| == 0 then []
    else [if tasks[0].id == id then replacement else tasks[0]]
         + ReplaceById(tasks[1..], id, replacement)
  }

  /** `tasks.filter(task => task.id !== id)`. */
  function RemoveById(tasks: seq<Task>, id: string): (r: seq<Task>)
    ensures forall t :: t in r <==> t in tasks && t.id != id
  {
    Filter(tasks, LacksId(id))
  }

  /** Deleting removes exactly the tasks carrying that id, and no others. */
  lemma RemoveByIdLength(tasks: seq<Task>, id: string)
    ensures |RemoveById(tasks, id)| + |Filter(tasks, HasId(id))| == |tasks|
  {
    FilterComplement(tasks, LacksId(id), HasId(id));
  }

  /** Deleting an id no task carries leaves the list as it was. */
  lemma RemoveUnknownId(tasks: seq<Task>, id: string)
    requires forall i :: 0 <= i < |tasks| ==> tasks[i].id != id
    ensures RemoveById(tasks, id) == tasks
  {
    FilterAll(tasks, LacksId(id));
  }

  /** Deleting keeps the surviving tasks in their relative order. */
  lemma RemoveByIdAppend(a: seq<Task>, b: seq<Task>, id: string)
    ensures RemoveById(a + b, id) == RemoveById(a, id) + RemoveById(b, id)
  {
    FilterAppend(a, b, LacksId(id));
  }

  /** `tasks.map(task => task.id === id ? { ...task, column: c } : task)`. */
  function MoveColumn(tasks: seq<Task>, id: string, c: ColumnId): (r: seq<Task>)
    ensures |r| == |tasks|
    ensures forall i :: 0 <= i < |tasks| ==>
              r[i] == if tasks[i].id == id then tasks[i].(column := ColumnName(c)) else tasks[i]
    ensures (forall i :: 0 <= i < |tasks| ==> tasks[i].id != id) ==> r == tasks
  {
    if |tasks| == 0 then []
    else [if tasks[0].id == id then tasks[0].(column := ColumnName(c)) else tasks[0]]
         + MoveColumn(tasks[1..], id, c)
  }

  /** After a move every task with the id sits in the target column, in its place. */
  lemma MovedTaskInTargetColumn(tasks: seq<Task>, id: string, c: ColumnId, i: nat)
    requires i < |tasks| && tasks[i].id == id
    ensures MoveColumn(tasks, id, c)[i].column == ColumnName(c)
    ensures tasks[i].(column := ColumnName(c)) in TasksByColumn(MoveColumn(tasks, id, c), c)
  {
    assert MoveColumn(tasks, id, c)[i] == tasks[i].(column := ColumnName(c));
  }

  /** Moving twice to the same column is the same as moving once. */
  lemma MoveColumnIdempotent(tasks: seq<Task>, id: string, c: ColumnId)
    ensures MoveColumn(MoveColumn(tasks, id, c), id, c) == MoveColumn(tasks, id, c)
  {
  }

  class Store {
    var tasks: seq<Task>
    var columns: seq<Column>
    var isLoading: bool
    var error: Option<string>

    /** No action ever changes the column list: it is always the three default columns. */
    ghost predicate Valid(): (b: bool)
      reads this
      ensures b ==> |columns| == 3 && forall i :: 0 <= i < |columns| ==> columns[i] == DefaultColumns[i]
    {
      columns == DefaultColumns
    }

    constructor ()
      ensures Valid() && tasks == [] && !isLoading && error == None
    {
      tasks := [];
      columns := DefaultColumns;
      isLoading := false;
      error := None;
    }

    /** `getTasksByColumn(c)` over the current list. */
    function GetTasksByColumn(c: ColumnId): (r: seq<Task>)
      reads this
      ensures forall t :: t in r <==> t in tasks && t.column == ColumnName(c)
    {
      TasksByColumn(tasks, c)
    }

    /** `set({ isLoading: true, error: null })`, the first step of a request. */
    method BeginRequest()
      requires Valid()
      modifies this
      ensures Valid() && tasks == old(tasks) && isLoading && error == None
    {
      isLoading := true;
      error := None;
    }

    method FinishFetch(outcome: Outcome<seq<Task>>)
      requires Valid()
      modifies this
      ensures Valid() && !isLoading
      ensures outcome.Success? ==> tasks == outcome.value && error == old(error)
      ensures outcome.Failure? ==> tasks == old(tasks) && error == Some(LoadFailed)
    {
      match outcome
      case Success(serverTasks) =>
        tasks := serverTasks;
        isLoading := false;
      case Failure =>
        error := Some(LoadFailed);
        isLoading := false;
    }

    /** `fetchTasks()`: replace the list with the server's. */
    method FetchTasks(outcome: Outcome<seq<Task>>) returns (request: Request)
      requires Valid()
      modifies this
      ensures request == ListTasks
      ensures Valid() && !isLoading
      ensures outcome.Success? ==> tasks == outcome.value && error == None
      ensures outcome.Failure? ==> tasks == old(tasks) && error == Some(LoadFailed)
    {
      request := ListTasks;
      BeginRequest();
      FinishFetch(outcome);
    }

    /** `initializeTasks()`: one fetch. */
    method InitializeTasks(outcome: Outcome<seq<Task>>) returns (request: Request)
      requires Valid()
      modifies this
      ensures request == ListTasks
      ensures Valid() && !isLoading
      ensures outcome.Success? ==> tasks == outcome.value && error == None
      ensures outcome.Failure? ==> tasks == old(tasks) && error == Some(LoadFailed)
    {
      request := FetchTasks(outcome);
    }

    method FinishAdd(outcome: Outcome<Task>)
      requires Valid()
      modifies this
      ensures Valid() && !isLoading
      ensures outcome.Success? ==> tasks == old(tasks) + [outcome.value] && error == old(error)
      ensures outcome.Failure? ==> tasks == old(tasks) && error == Some(AddFailed)
    {
      match outcome
      case Success(created) =>
        tasks := tasks + [created];
        isLoading := false;
      case Failure =>
        error := Some(AddFailed);
        isLoading := false;
    }

    /**
     * `addTask(title, description, columnId)`: the server's task is appended
     * once the server confirms; `now` stands for `Date.now()`.
     */
    method AddTask(title: string, description: string, columnId: ColumnId,
                   now: int, outcome: Outcome<Task>) returns (request: Request)
      requires Valid()
      modifies this
      ensures request == CreateTask(title, description, columnId, now)
      ensures Valid() && !isLoading
      ensures outcome.Success? ==> tasks == old(tasks) + [outcome.value] && error == None
      ensures outcome.Failure? ==> tasks == old(tasks) && error == Some(AddFailed)
    {
      request := CreateTask(title, description, columnId, now);
      BeginRequest();
      FinishAdd(outcome);
    }

    method FinishUpdate(id: string, outcome: Outcome<Task>)
      requires Valid()
      modifies this
      ensures Valid() && !isLoading
      ensures outcome.Success? ==>
                tasks == ReplaceById(old(tasks), id, outcome.value) && error == old(error)
      ensures outcome.Failure? ==> tasks == old(tasks) && error == Some(UpdateFailed)
    {
      match outcome
      case Success(updated) =>
        tasks := ReplaceById(tasks, id, updated);
        isLoading := false;
      case Failure =>
        error := Some(UpdateFailed);
        isLoading := false;
    }

    /** `updateTask(id, title, description)`: every entry with the id becomes the server's task. */
    method UpdateTask(id: string, title: string, description: string,
                      outcome: Outcome<Task>) returns (request: Request)
      requires Valid()
      modifies this
      ensures request == UpdateText(id, title, description)
      ensures Valid() && !isLoading
      ensures outcome.Success? ==>
                tasks == ReplaceById(old(tasks), id, outcome.value) && error == None
      ensures outcome.Failure? ==> tasks == old(tasks) && error == Some(UpdateFailed)
    {
      request := UpdateText(id, title, description);
      BeginRequest();
      FinishUpdate(id, outcome);
    }

    method FinishDelete(id: string, ok: bool)
      requires Valid()
      modifies this
      ensures Valid() && !isLoading
      ensures ok ==> tasks == RemoveById(old(tasks), id) && error == old(error)
      ensures !ok ==> tasks == old(tasks) && error == Some(DeleteFailed)
    {
      if ok {
        tasks := RemoveById(tasks, id);
        isLoading := false;
      } else {
        error := Some(DeleteFailed);
        isLoading := false;
      }
    }

    /** `deleteTask(id)`: every task with the id leaves the list once the server confirms. */
    method DeleteTask(id: string, ok: bool) returns (request: Request)
      requires Valid()
      modifies this
      ensures request == Request.DeleteTask(id)
      ensures Valid() && !isLoading
      ensures ok ==> tasks == RemoveById(old(tasks), id) && error == None
      ensures !ok ==> tasks == old(tasks) && error == Some(DeleteFailed)
    {
      request := Request.DeleteTask(id);
      BeginRequest();
      FinishDelete(id, ok);
    }

    /**
     * The optimistic half of `moveTask`: remember the list as it is, then
     * write the new column onto the matching tasks before the server answers.
     */
    method BeginMove(taskId: string, newColumnId: ColumnId)
      returns (snapshot: seq<Task>, request: Request)
      requires Valid()
      modifies this
      ensures request == UpdateColumn(taskId, newColumnId)
      ensures snapshot == old(tasks)
      ensures Valid() && tasks == MoveColumn(old(tasks), taskId, newColumnId)
      ensures isLoading == old(isLoading) && error == old(error)
    {
      snapshot := tasks;
      tasks := MoveColumn(tasks, taskId, newColumnId);
      request := UpdateColumn(taskId, newColumnId);
    }

    /** The resolution of `moveTask`: keep the optimistic list, or roll back to the snapshot. */
    method FinishMove(snapshot: seq<Task>, ok: bool)
      requires Valid()
      modifies this
      ensures Valid() && isLoading == old(isLoading)
      ensures ok ==> tasks == old(tasks) && error == old(error)
      ensures !ok ==> tasks == snapshot && error == Some(MoveFailed)
    {
      if !ok {
        tasks := snapshot;
        error := Some(MoveFailed);
      }
    }

    /** `moveTask(taskId, newColumnId)`, begun and resolved with no other action in between. */
    method MoveTask(taskId: string, newColumnId: ColumnId, ok: bool) returns (request: Request)
      requires Valid()
      modifies this
      ensures request == UpdateColumn(taskId, newColumnId)
      ensures Valid() && isLoading == old(isLoading)
      ensures ok ==> tasks == MoveColumn(old(tasks), taskId, newColumnId) && error == old(error)
      ensures !ok ==> tasks == old(tasks) && error == Some(MoveFailed)
    {
      var snapshot;
      snapshot, request := BeginMove(taskId, newColumnId);
      FinishMove(snapshot, ok);
    }
  }
}
