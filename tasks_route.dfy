/**
 * The `/api/tasks` handlers (app/api/tasks/route.ts): GET lists every row
 * of the tasks table as an API task; POST validates the request body,
 * inserts one row and answers with it. The database is outside the model:
 * each handler takes what its query returned (or that it threw) as an
 * input, and POST reports the values it would insert.
 */
module TasksRoute {
  import opened Types
  import Decimal

  /**
   * A row of the tasks table. `createdAt` is the row's `created_at` already
   * read as milliseconds (`new Date(...).getTime()`).
   */
  datatype Row = Row(id: int, title: string, description: Option<string>, status: string, createdAt: int)

  /** JavaScript truthiness of an optional string: present and non-empty. */
  predicate Truthy(s: Option<string>): (b: bool)
    ensures s.None? ==> !b
    ensures s == Some("") ==> !b
    ensures b ==> |s.value| >= 1
  {
    s.Some? && s.value != ""
  }

  /** `s || ""`. */
  function OrEmpty(s: Option<string>): (r: string)
    ensures Truthy(s) ==> r == s.value
    ensures !Truthy(s) ==> r == ""
  {
    if Truthy(s) then s.value else ""
  }

  /** The row-to-task mapping shared by GET and POST. */
  function MapRow(row: Row): (t: Task)
    ensures Decimal.IsIntString(t.id) && Decimal.ParseInt(t.id) == row.id
    ensures t.title == row.title && t.column == row.status && t.createdAt == row.createdAt
    ensures t.description == if row.description.Some? then row.description.value else ""
  {
    Task(Decimal.IntToString(row.id), row.title, OrEmpty(row.description), row.status, row.createdAt)
  }

  /** `rows.map(MapRow)`: one task per row, in row order. */
  function MapRows(rows: seq<Row>): (r: seq<Task>)
    ensures |r| == |rows|
    ensures forall i :: 0 <= i < |rows| ==> r[i] == MapRow(rows[i])
  {
    if |rows| == 0 then [] else [MapRow(rows[0])] + MapRows(rows[1..])
  }

  /** Rows with distinct ids map to tasks with distinct ids. */
  lemma MappedIdsDistinct(rows: seq<Row>)
    requires forall i, j :: 0 <= i < j < |rows| ==> rows[i].id != rows[j].id
    ensures forall i, j :: 0 <= i < j < |rows| ==> MapRows(rows)[i].id != MapRows(rows)[j].id
  {
  }

  datatype Body = TaskList(tasks: seq<Task>) | OneTask(task: Task) | ErrorMessage(error: string)

  datatype Response = Response(status: int, body: Body)

  /** `GET`: 200 with every row mapped, or 500 when the query throws. */
  function Get(query: Outcome<seq<Row>>): (r: Response)
    ensures query.Success? ==> r.status == 200 && r.body.TaskList?
                               && |r.body.tasks| == |query.value|
                               && forall i :: 0 <= i < |query.value| ==> r.body.tasks[i] == MapRow(query.value[i])
    ensures query.Failure? ==> r == Response(500, ErrorMessage("Failed to fetch tasks"))
  {
    match query
    case Success(rows) => Response(200, TaskList(MapRows(rows)))
    case Failure => Response(500, ErrorMessage("Failed to fetch tasks"))
  }

  /** The JSON body of a POST; a field the client left out is None. */
  datatype PostBody = PostBody(title: Option<string>, description: Option<string>, column: Option<string>)

  /** The values an `INSERT INTO tasks (title, description, status)` is issued with. */
  datatype Insert = Insert(title: string, description: string, status: string)

  datatype PostResult = PostResult(response: Response, insert: Option<Insert>)

  /**
   * `POST`: `body` is the parsed request body (None when `request.json()`
   * throws) and `inserted` the row the insert returned (Failure when it
   * throws).
   */
  function Post(body: Option<PostBody>, inserted: Outcome<Row>): (r: PostResult)
    ensures r.response.status in {201, 400, 500}
    ensures r.response.status == 400 <==>
              body.Some? && (!Truthy(body.value.title) || !Truthy(body.value.column))
    ensures r.insert.Some? <==>
              body.Some? && Truthy(body.value.title) && Truthy(body.value.column)
    ensures r.insert.Some? ==>
              r.insert.value == Insert(body.value.title.value, OrEmpty(body.value.description),
                                       body.value.column.value)
    ensures r.response.status == 201 <==> r.insert.Some? && inserted.Success?
    ensures r.response.status == 201 ==> r.response.body == OneTask(MapRow(inserted.value))
  {
    match body
    case None => PostResult(Response(500, ErrorMessage("Failed to create task")), None)
    case Some(b) =>
      if !Truthy(b.title) || !Truthy(b.column) then
        PostResult(Response(400, ErrorMessage("Title and column are required")), None)
      else
        var values := Insert(b.title.value, OrEmpty(b.description), b.column.value);
        match inserted
        case Success(row) => PostResult(Response(201, OneTask(MapRow(row))), Some(values))
        case Failure => PostResult(Response(500, ErrorMessage("Failed to create task")), Some(values))
  }

  /** POST does not check the column against the three known ids: any non-empty string is inserted. */
  lemma PostAcceptsAnyColumn(title: string, column: string, row: Row)
    requires title != "" && column != ""
    ensures var r := Post(Some(PostBody(Some(title), None, Some(column))), Success(row));
            r.response.status == 201 && r.insert == Some(Insert(title, "", column))
  {
  }
}
