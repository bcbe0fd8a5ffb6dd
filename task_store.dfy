/**
 * The in-memory task store (lib/taskStore.ts): a class over a private task
 * list, with operations to list it, find a task by id, append one task,
 * overwrite one entry and splice one entry out. Each lookup by id is
 * `findIndex`/`find`: the FIRST task with the id is the one read, updated
 * or removed.
 */
module ServerTasks {
  import opened Types
  import opened Seqs
  import Decimal

  /** `Omit<Task, "id">`: the fields a new task is created from. */
  datatype NewTask = NewTask(title: string, description: string, column: string, createdAt: int)

  /** `Partial<Task>`: each field is either given (Some) or absent (None). */
  datatype TaskPatch = TaskPatch(
    id: Option<string>,
    title: Option<string>,
    description: Option<string>,
    column: Option<string>,
    createdAt: Option<int>)

  /** `{ id, ...fields }`. */
  function WithId(fields: NewTask, id: string): (t: Task)
    ensures t.id == id && t.title == fields.title && t.description == fields.description
    ensures t.column == fields.column && t.createdAt == fields.createdAt
  {
    Task(id, fields.title, fields.description, fields.column, fields.createdAt)
  }

  function Or<T>(given: Option<T>, current: T): T
  {
    if given.Some? then given.value else current
  }

  /**
   * `{ ...task, ...updates, id: task.id }`: every field the patch gives
   * overrides the task's, except the id, which never changes.
   */
  function Merge(task: Task, updates: TaskPatch): (r: Task)
    ensures r.id == task.id
    ensures updates.title.Some? ==> r.title == updates.title.value
    ensures updates.title.None? ==> r.title == task.title
    ensures updates.description.Some? ==> r.description == updates.description.value
    ensures updates.description.None? ==> r.description == task.description
    ensures updates.column.Some? ==> r.column == updates.column.value
    ensures updates.column.None? ==> r.column == task.column
    ensures updates.createdAt.Some? ==> r.createdAt == updates.createdAt.value
    ensures updates.createdAt.None? ==> r.createdAt == task.createdAt
  {
    Task(task.id, Or(updates.title, task.title), Or(updates.description, task.description),
         Or(updates.column, task.column), Or(updates.createdAt, task.createdAt))
  }

  /** An empty patch changes nothing. */
  lemma MergeEmptyPatch(task: Task)
    ensures Merge(task, TaskPatch(None, None, None, None, None)) == task
  {
  }

  /**
   * The three sample tasks the store starts with, one per column. Each
   * is stamped by its own `Date.now()` call: `now1`, `now2`, `now3`.
   */
  function SampleTasks(now1: int, now2: int, now3: int): (s: seq<Task>)
    ensures |s| == 3
    ensures s[0].id == "1" && s[0].column == ColumnName(Todo) && s[0].createdAt == now1
    ensures s[1].id == "2" && s[1].column == ColumnName(InProgress) && s[1].createdAt == now2
    ensures s[2].id == "3" && s[2].column == ColumnName(Done) && s[2].createdAt == now3
    ensures forall i, j :: 0 <= i < j < 3 ==> s[i].id != s[j].id
  {
    [ Task("1", "Sample Task 1", "This is a sample task from the API", "todo", now1),
      Task("2", "Sample Task 2", "Another sample task", "inProgress", now2),
      Task("3", "Sample Task 3", "Completed sample task", "done", now3) ]
  }

  class TaskStore {
    var tasks: seq<Task>

    constructor (now1: int, now2: int, now3: int)
      ensures tasks == SampleTasks(now1, now2, now3)
    {
      tasks := SampleTasks(now1, now2, now3);
    }

    /** `getTasks()`. */
    method GetTasks() returns (r: seq<Task>)
      ensures r == tasks
    {
      r := tasks;
    }

    /** `getTaskById(id)`: the first task with the id, or none. */
    function GetTaskById(id: string): (r: Option<Task>)
      reads this
      ensures r.None? <==> forall i :: 0 <= i < |tasks| ==> tasks[i].id != id
      ensures r.Some? ==> exists i :: 0 <= i < |tasks| && tasks[i] == r.value && r.value.id == id
                                      && forall j :: 0 <= j < i ==> tasks[j].id != id
    {
      Find(tasks, HasId(id))
    }

    /** `createTask(fields)`: append one task whose id is the clock reading `now` in decimal. */
    method CreateTask(fields: NewTask, now: int) returns (created: Task)
      modifies this
      ensures created == WithId(fields, Decimal.IntToString(now))
      ensures tasks == old(tasks) + [created]
    {
      created := WithId(fields, Decimal.IntToString(now));
      tasks := tasks + [created];
    }

    /**
     * `updateTask(id, updates)`: merge the patch into the first task with
     * the id and return it; null (None) and no change when there is none.
     */
    method UpdateTask(id: string, updates: TaskPatch) returns (r: Option<Task>)
      modifies this
      ensures var k := FirstIndex(old(tasks), HasId(id));
              if k == -1 then r == None && tasks == old(tasks)
              else tasks == old(tasks)[k := Merge(old(tasks)[k], updates)] && r == Some(tasks[k])
    {
      var index := FirstIndex(tasks, HasId(id));
      if index == -1 {
        return None;
      }
      tasks := tasks[index := Merge(tasks[index], updates)];
      r := Some(tasks[index]);
    }

    /**
     * `deleteTask(id)`: splice out the first task with the id and report
     * true; report false and change nothing when there is none.
     */
    method DeleteTask(id: string) returns (deleted: bool)
      modifies this
      ensures var k := FirstIndex(old(tasks), HasId(id));
              deleted == (k != -1) &&
              if k == -1 then tasks == old(tasks)
              else tasks == old(tasks)[..k] + old(tasks)[k + 1..]
    {
      var index := FirstIndex(tasks, HasId(id));
      if index == -1 {
        return false;
      }
      tasks := tasks[..index] + tasks[index + 1..];
      deleted := true;
    }
  }

  /** A successful update keeps the length, the id and every other entry. */
  lemma UpdateKeepsOthers(tasks: seq<Task>, id: string, updates: TaskPatch)
    requires FirstIndex(tasks, HasId(id)) != -1
    ensures var k := FirstIndex(tasks, HasId(id));
            var after := tasks[k := Merge(tasks[k], updates)];
            |after| == |tasks| && after[k].id == id
            && (forall j :: 0 <= j < |tasks| && j != k ==> after[j] == tasks[j])
  {
  }

  /** A delete of a present id removes exactly that one occurrence. */
  lemma DeleteRemovesOne(tasks: seq<Task>, id: string)
    requires FirstIndex(tasks, HasId(id)) != -1
    ensures var k := FirstIndex(tasks, HasId(id));
            var after := tasks[..k] + tasks[k + 1..];
            |after| == |tasks| - 1
            && multiset(after) + multiset{tasks[k]} == multiset(tasks)
            && tasks[k].id == id
  {
    var k := FirstIndex(tasks, HasId(id));
    assert tasks == tasks[..k] + [tasks[k]] + tasks[k + 1..];
  }

  /** Tasks created at different clock readings get different ids. */
  lemma CreatedIdsDistinct(fields1: NewTask, now1: int, fields2: NewTask, now2: int)
    requires now1 != now2
    ensures WithId(fields1, Decimal.IntToString(now1)).id != WithId(fields2, Decimal.IntToString(now2)).id
  {
    if Decimal.IntToString(now1) == Decimal.IntToString(now2) {
      Decimal.IntToStringInjective(now1, now2);
    }
  }
}
