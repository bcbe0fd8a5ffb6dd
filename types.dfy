/**
 * The board's record types (types/index.ts), together with the small
 * wrappers used everywhere else: an optional value for a
 * `T | undefined` / `T | null` result, and the outcome of a remote call.
 */
module Types {

  /** A value that may be absent (`T | undefined`, `T | null`). */
  datatype Option<T> = None | Some(value: T)

  /**
   * The result of a remote call as the caller sees it: either the call
   * succeeded and delivered a value, or it failed (rejected request,
   * non-ok response, unreadable body; the caller cannot tell these apart).
   */
  datatype Outcome<T> = Success(value: T) | Failure

  /** `ColumnId = 'todo' | 'inProgress' | 'done'`. */
  datatype ColumnId = Todo | InProgress | Done

  /** The string a column id is written as, on the wire and in the DOM. */
  function ColumnName(c: ColumnId): (s: string)
    ensures s in {"todo", "inProgress", "done"}
  {
    match c
    case Todo => "todo"
    case InProgress => "inProgress"
    case Done => "done"
  }

  /** Different column ids have different names. */
  lemma ColumnNameInjective(c: ColumnId, d: ColumnId)
    ensures ColumnName(c) == ColumnName(d) ==> c == d
  {
  }

  /** A column string that names one of the three columns. */
  predicate IsColumnName(s: string): (b: bool)
    ensures b <==> exists c: ColumnId :: ColumnName(c) == s
  {
    assert ColumnName(Todo) == "todo" && ColumnName(InProgress) == "inProgress" && ColumnName(Done) == "done";
    s in {"todo", "inProgress", "done"}
  }

  /**
   * A task as the client holds it. The declared type of `column` is
   * `ColumnId`, but a task arrives from the API carrying the database row's
   * status, which is any string; so `column` is the string as received.
   */
  datatype Task = Task(
    id: string,
    title: string,
    description: string,
    column: string,
    createdAt: int)

  datatype Column = Column(id: ColumnId, title: string)

  /** The predicate `task => task.id === id`, shared by every lookup by id. */
  function HasId(id: string): Task -> bool
  {
    (t: Task) => t.id == id
  }

  /** The predicate `task => task.id !== id` of a delete. */
  function LacksId(id: string): Task -> bool
  {
    (t: Task) => t.id != id
  }

  /** The predicate `task => task.column === c` of a column filter. */
  function InColumn(c: ColumnId): Task -> bool
  {
    (t: Task) => t.column == ColumnName(c)
  }
}
