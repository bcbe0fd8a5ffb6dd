# kanban-next: a Dafny model of the board, its task API and the dashboard

This project models the core of kanban-next, a Kanban board written in
TypeScript with Next.js. Tasks sit in three fixed columns: To Do, In
Progress and Done. The parts modelled are:

- the client store (`stores/boardStore.ts`). It holds the task list, the
  column list, a loading flag and an error message. Each action sends one
  request to the task API and turns the answer into a new list. A move is
  optimistic: it applies at once and is rolled back if the request fails;
- the board's drag handling (`components/Board.tsx`). A drag start picks
  the task to show as the overlay. A drag end becomes either no move or
  one move to a column;
- a column (`components/Column.tsx`): its dialog state, the store action a
  save or delete calls, and the column colour;
- the create/edit dialog (`components/TaskModal.tsx`): the form fields, the
  submit rule (save the trimmed fields only when the trimmed title is
  non-empty), the delete that needs confirming, and what is shown;
- the in-memory task store class (`lib/taskStore.ts`). The API routes do
  not use it; they go to SQL. Lookups by id use the first task with that
  id;
- the `/api/tasks` GET and POST handlers (`app/api/tasks/route.ts`): row
  mapping, validation, the inserted values, status codes and error bodies;
- the dashboard statistics (`app/dashboard/page.tsx`) and chart data
  (`components/DashboardCharts.tsx`): counts per status, the completion
  rate, recent tasks and badges, and tasks created per day.

Pure list transforms are functions. Each is proved against a reference
property or a partner lemma.

Anything that mutates state in place in the source is a Dafny `class` with
`modifies` clauses:

- the Zustand store (`BoardStore.Store`);
- the server store (`ServerTasks.TaskStore`);
- the React component state (`DragDrop.BoardView`, `ColumnView.ColumnPanel`,
  `TaskModal.TaskForm`).

The loop that builds the timeline is a method with a loop invariant.

Values from outside the program become parameters:

- the outcome of a network request or SQL query is an `Outcome<T>` or an
  `ok: bool`;
- `Date.now()` is `now: int`;
- `window.confirm` is a `bool`;
- `toLocaleDateString` is a function `dateKey: string -> string`.

Each store action changes state once before its first `await`. It
changes state at most once more, when the request settles. `deleteTask`
and `moveTask` await only the `fetch`; `fetchTasks`, `addTask` and
`updateTask` also await `response.json()` on success. A rejected `fetch`
or a non-ok status goes straight to the catch branch, without reaching
the second `await`. A successful move changes nothing once it has
settled. Each action is modelled as three methods:

- `Begin…`: the state change before the request is sent;
- `Finish…`: the state change, if any, once the request has settled.
  Transport failure, a non-ok status and an unreadable body all go to the
  same catch branch, so they are one `Failure`;
- the action's own name: `Begin…` then `Finish…` with no other action
  between them.

A task's `column` is declared `ColumnId` in the client, but the API sends
each row's status unchanged and POST stores any non-empty column. So
the client's `Task.column` is a string. Facts that need it to be one of
the three ids state that as a condition.

Modules, one per source file, plus shared helpers:

| module | file |
|---|---|
| `Types` | types/index.ts |
| `Seqs` | generic `filter`, `findIndex` and `find` |
| `Decimal` | `Number.prototype.toString` on integers |
| `BoardStore` | stores/boardStore.ts |
| `ServerTasks` | lib/taskStore.ts |
| `DragDrop` | components/Board.tsx |
| `TaskModal` | components/TaskModal.tsx |
| `ColumnView` | components/Column.tsx |
| `TasksRoute` | app/api/tasks/route.ts |
| `Dashboard` | app/dashboard/page.tsx |
| `DashboardCharts` | components/DashboardCharts.tsx |

## Model

| member | source | states |
|---|---|---|
| Types.ColumnName | types/index.ts:7 | a column id is written as one of "todo", "inProgress", "done" |
| Types.ColumnNameInjective | types/index.ts:7 | distinct column ids are written differently |
| Types.IsColumnName | types/index.ts:7 | a string names a column exactly when it is how one of the three ids is written |
| Seqs.Filter | stores/boardStore.ts:187 | `filter` keeps exactly the elements that satisfy the predicate and never grows the list |
| Seqs.FilterAppend | stores/boardStore.ts:187 | filtering a concatenation is concatenating the filtered parts (order is preserved) |
| Seqs.FilterAll | stores/boardStore.ts:145 | when every element passes, `filter` returns the list unchanged |
| Seqs.FilterEmptyIff | app/dashboard/page.tsx:86-90 | a filter is empty exactly when no element passes |
| Seqs.FilterComplement | components/DashboardCharts.tsx:58-69 | filtering by a predicate and by its negation splits the list: the two lengths add up to the whole |
| Seqs.FirstIndex | lib/taskStore.ts:55 | `findIndex` returns -1 exactly when nothing matches, else the first matching index |
| Seqs.Find | components/Board.tsx:63-64 | `find` returns nothing exactly when nothing matches, else the element at the first matching index |
| Decimal.DigitChar | app/api/tasks/route.ts:11 | a digit value 0..9 becomes its character |
| Decimal.NatToString | app/api/tasks/route.ts:11 | `toString` of a natural is a non-empty digit string without a leading zero (only 0 is "0") that reads back as the number |
| Decimal.IntToString | app/api/tasks/route.ts:11 | `toString` of an integer is the canonical decimal: a '-' exactly for negatives, no leading zero (no "00", "-0" or "-05"), and it parses back to the integer |
| Decimal.IntToStringInjective | lib/taskStore.ts:45 | different integers have different decimal strings |
| BoardStore.TasksByColumn | stores/boardStore.ts:186-188 | a column's tasks are exactly the list's tasks with that column |
| BoardStore.TasksByColumnAppend | stores/boardStore.ts:186-188 | a column's tasks keep their relative order from the list |
| BoardStore.DefaultColumnsInOrder | stores/boardStore.ts:34-38 | the board has three distinct columns, "todo", "inProgress", "done", in that order, titled "To Do", "In Progress", "Done" |
| BoardStore.ColumnsSplit | stores/boardStore.ts:186-188 | every task is in exactly one column's list or has a column string naming no column, counted with multiplicity |
| BoardStore.ColumnsPartition | stores/boardStore.ts:186-188 | the three columns' lists never hold more than the whole list, and they partition it (by length and as multisets) exactly when every task's column is one of the three ids |
| BoardStore.ReplaceById | stores/boardStore.ts:120-124 | same length; every task with the id is replaced, every other task stays in place |
| BoardStore.RemoveById | stores/boardStore.ts:144-146 | the result holds exactly the tasks whose id differs |
| BoardStore.RemoveByIdLength | stores/boardStore.ts:144-146 | exactly the tasks carrying the id are removed: kept plus removed equals the total |
| BoardStore.RemoveUnknownId | stores/boardStore.ts:144-146 | deleting an id no task carries leaves the list exactly as it was |
| BoardStore.RemoveByIdAppend | stores/boardStore.ts:144-146 | deleting keeps the surviving tasks in their relative order |
| BoardStore.MoveColumn | stores/boardStore.ts:158-162 | same length; each task with the id gets the new column's name and nothing else changes; an unknown id changes nothing |
| BoardStore.MovedTaskInTargetColumn | stores/boardStore.ts:158-162 | after a move the task stays in place with the target column, so it is among that column's tasks whatever its column string was |
| BoardStore.MoveColumnIdempotent | stores/boardStore.ts:158-162 | moving twice to the same column is the same as moving once |
| BoardStore.Store.Valid | stores/boardStore.ts:34-43 | the store's invariant: the column list is always the three default columns (no action sets `columns`) |
| BoardStore.Store.constructor | stores/boardStore.ts:42-45 | the store starts with no tasks, the three default columns, not loading and no error |
| BoardStore.Store.GetTasksByColumn | stores/boardStore.ts:186-188 | `getTasksByColumn` returns exactly the current tasks in that column |
| BoardStore.Store.BeginRequest | stores/boardStore.ts:54 | starting a request sets loading, clears the error and keeps the list |
| BoardStore.Store.FinishFetch | stores/boardStore.ts:61-64 | on success the list becomes the server's; on failure it is kept and the error is "Failed to load tasks"; loading ends either way |
| BoardStore.Store.FetchTasks | stores/boardStore.ts:53-66 | sends a list request; success replaces the list with no error left; failure keeps the list and reports the load error |
| BoardStore.Store.InitializeTasks | stores/boardStore.ts:48-50 | initialising is exactly one fetch |
| BoardStore.Store.FinishAdd | stores/boardStore.ts:90-96 | on success the server's task is appended; on failure the list is kept and the error is "Failed to add task" |
| BoardStore.Store.AddTask | stores/boardStore.ts:69-98 | sends a create request carrying the title, description, column and `now`; success appends the returned task and leaves no error; failure keeps the list |
| BoardStore.Store.FinishUpdate | stores/boardStore.ts:120-128 | on success every task with the id becomes the server's task; on failure the list is kept and the error is "Failed to update task" |
| BoardStore.Store.UpdateTask | stores/boardStore.ts:101-130 | sends an update request with the id, title and description; success replaces by id; failure keeps the list |
| BoardStore.Store.FinishDelete | stores/boardStore.ts:144-150 | on success every task with the id is removed; on failure the list is kept and the error is "Failed to delete task" |
| BoardStore.Store.DeleteTask | stores/boardStore.ts:133-152 | sends a delete request with the id; success removes by id and leaves no error; failure keeps the list |
| BoardStore.Store.BeginMove | stores/boardStore.ts:155-162 | snapshots the list and applies the move before any answer, leaving the loading flag and error untouched |
| BoardStore.Store.FinishMove | stores/boardStore.ts:175-181 | success keeps the optimistic list; failure restores the snapshot and sets "Failed to move task" |
| BoardStore.Store.MoveTask | stores/boardStore.ts:155-183 | a move that succeeds changes exactly the moved task's column; one that fails leaves the list exactly as before and reports the error; loading is never touched |
| ServerTasks.WithId | lib/taskStore.ts:44-47 | `{ id, ...fields }` carries the given id and every given field |
| ServerTasks.Merge | lib/taskStore.ts:59-62 | each field in the patch overrides the task's, absent fields are kept, and the id never changes |
| ServerTasks.MergeEmptyPatch | lib/taskStore.ts:59-62 | an empty patch changes nothing |
| ServerTasks.SampleTasks | lib/taskStore.ts:7-29 | the store starts with three tasks with distinct ids "1", "2", "3", one per column, each stamped by its own clock reading |
| ServerTasks.TaskStore.constructor | lib/taskStore.ts:7-29 | the initial list is the sample tasks, stamped by three clock readings |
| ServerTasks.TaskStore.GetTasks | lib/taskStore.ts:32-34 | returns the current list |
| ServerTasks.TaskStore.GetTaskById | lib/taskStore.ts:37-39 | none exactly when no task has the id; otherwise the first task with the id |
| ServerTasks.TaskStore.CreateTask | lib/taskStore.ts:43-50 | appends and returns one task whose id is `now` in decimal, carrying the given fields |
| ServerTasks.TaskStore.UpdateTask | lib/taskStore.ts:54-64 | with no task having the id: null and no change; otherwise only the first such task is replaced by the merge, which is returned |
| ServerTasks.TaskStore.DeleteTask | lib/taskStore.ts:67-73 | true exactly when some task has the id, and then only the first such task is spliced out; otherwise false and no change |
| ServerTasks.UpdateKeepsOthers | lib/taskStore.ts:54-64 | a successful update keeps the length, the target's id and every other entry |
| ServerTasks.DeleteRemovesOne | lib/taskStore.ts:67-73 | a successful delete removes exactly one occurrence of a task with the id |
| ServerTasks.CreatedIdsDistinct | lib/taskStore.ts:45 | tasks created at different clock readings get different ids |
| DragDrop.FindColumn | components/Board.tsx:82-86 | a column is found exactly when one of the given columns' ids is written as the target, and the found id is |
| DragDrop.ResolveDrop | components/Board.tsx:76-91 | no target or a non-column target means no move; a column target means moving the dragged id to exactly that column; a move is always of the dragged id to the column named by the target |
| DragDrop.DropOnBoardColumns | components/Board.tsx:82-91 | on the board's columns a drop moves exactly when the target is "todo", "inProgress" or "done", and then to that column; dropping onto the task's own column still moves |
| DragDrop.AllColumnTasks | components/Board.tsx:63 | the flattened column lists only hold tasks of the store |
| DragDrop.AllColumnTasksUnfold | components/Board.tsx:63 | over the board's columns the flattened list is the To Do, In Progress and Done lists, in that order |
| DragDrop.AllColumnTasksMembers | components/Board.tsx:63 | the flattened list holds exactly the store's tasks whose column string names a column |
| DragDrop.AllColumnTasksComplete | components/Board.tsx:63 | the flattened list never holds more than the store's list, and is that list up to order (same multiset) exactly when every task's column is one of the three ids |
| DragDrop.DraggedTask | components/Board.tsx:63-64 | a found task is in the store and has the dragged id |
| DragDrop.DraggedTaskFound | components/Board.tsx:63-68 | a task is found exactly when the store holds one with the dragged id whose column string names a column |
| DragDrop.UnknownColumnHidden | components/Board.tsx:63-64 | a task whose column string names no column is in no column's list and, when its id is unique, cannot be dragged |
| DragDrop.BoardView.constructor | components/Board.tsx:35 | no task is being dragged at first |
| DragDrop.BoardView.HandleDragStart | components/Board.tsx:58-69 | the overlay shows the found task, or keeps what it showed when none is found |
| DragDrop.BoardView.HandleDragEnd | components/Board.tsx:72-92 | the overlay is always cleared; the store changes only by the move the drop decides, or by its rollback and error |
| TaskModal.IsJsWhitespace | components/TaskModal.tsx:47 | space, tab, line feed and carriage return are removed by `trim`; letters, digits and the zero-width space U+200B are not |
| TaskModal.TrimStart | components/TaskModal.tsx:47 | drops exactly the maximal leading run of ECMAScript whitespace |
| TaskModal.TrimEnd | components/TaskModal.tsx:47 | drops exactly the maximal trailing run of ECMAScript whitespace |
| TaskModal.Trim | components/TaskModal.tsx:47-48 | `trim()` is the slice of the string that neither starts nor ends with whitespace, and everything cut off before and after it is whitespace |
| TaskModal.TrimEmptyIff | components/TaskModal.tsx:47 | the trimmed string is empty exactly when the string is all whitespace |
| TaskModal.TrimIdempotent | components/TaskModal.tsx:47-48 | trimming twice is trimming once |
| TaskModal.TaskForm.constructor | components/TaskModal.tsx:32-33 | both fields start empty |
| TaskModal.TaskForm.SyncWithTask | components/TaskModal.tsx:35-43 | the fields are pre-filled from the edited task, or cleared when there is none |
| TaskModal.TaskForm.ChangeTitle | components/TaskModal.tsx:107 | typing sets the title only |
| TaskModal.TaskForm.ChangeDescription | components/TaskModal.tsx:127 | typing sets the description only |
| TaskModal.TaskForm.HandleSubmit | components/TaskModal.tsx:45-53 | nothing is saved exactly when the title is all whitespace; otherwise the trimmed fields are saved (the title non-empty and trimmed), then the form is cleared, then closed |
| TaskModal.DeleteEffects | components/TaskModal.tsx:55-63 | nothing happens without a delete handler; with one, confirmation is asked, and declining does nothing more; confirming deletes, then closes |
| TaskModal.Render | components/TaskModal.tsx:65-160 | nothing is shown when closed; the heading and submit label follow the mode; the delete button shows exactly in edit mode with a handler |
| ColumnView.ColumnColor | components/Column.tsx:67-78 | "inProgress" is blue, "done" is green, every other id is gray |
| ColumnView.ColumnColors | components/Column.tsx:67-78 | the three columns get three different colours |
| ColumnView.ColumnPanel.constructor | components/Column.tsx:32-34 | the dialog starts closed, with nothing selected, in create mode |
| ColumnView.ColumnPanel.HandleAddTask | components/Column.tsx:37-41 | opens the dialog empty in create mode |
| ColumnView.ColumnPanel.HandleEditTask | components/Column.tsx:44-48 | opens the dialog on the task in edit mode |
| ColumnView.ColumnPanel.HandleClose | components/Column.tsx:131-134 | closes the dialog and drops the selection, keeping the mode |
| ColumnView.ColumnPanel.HandleSaveTask | components/Column.tsx:51-57 | create mode adds to this column; edit mode updates the selected task; edit mode with no selection does nothing |
| ColumnView.ColumnPanel.HandleDeleteTask | components/Column.tsx:60-64 | deletes the selected task, or does nothing without a selection |
| ColumnView.ColumnPanel.HasDeleteHandler | components/Column.tsx:136 | a delete handler is passed exactly in edit mode |
| ColumnView.ColumnPanel.Dialog | components/Column.tsx:128-137 | the dialog is shown exactly while open, with a delete button exactly in edit mode |
| TasksRoute.Truthy | app/api/tasks/route.ts:35 | an absent or empty string is falsy; a truthy string is non-empty |
| TasksRoute.OrEmpty | app/api/tasks/route.ts:13 | `s \|\| ""` is the string when truthy, else empty |
| TasksRoute.MapRow | app/api/tasks/route.ts:10-16 | the client task's id is the row id in decimal (it parses back), its column is the row's status whatever string it is, and a missing description becomes empty |
| TasksRoute.MapRows | app/api/tasks/route.ts:10-16 | one task per row, in row order |
| TasksRoute.MappedIdsDistinct | app/api/tasks/route.ts:11 | rows with distinct ids map to tasks with distinct ids |
| TasksRoute.Get | app/api/tasks/route.ts:5-26 | 200 with every row mapped in order, or 500 with "Failed to fetch tasks" when the query throws |
| TasksRoute.Post | app/api/tasks/route.ts:29-66 | status is 201, 400 or 500; 400 exactly when title or column is falsy; an insert happens exactly when both are truthy, with the given values and an empty default description; 201 exactly when the insert returns a row, which is answered mapped |
| TasksRoute.PostAcceptsAnyColumn | app/api/tasks/route.ts:35-47 | any non-empty column string is accepted and inserted as the status |
| Dashboard.StatusCount | app/dashboard/page.tsx:86-90 | a status count never exceeds the total |
| Dashboard.StatusCountZero | app/dashboard/page.tsx:86-90 | a status counts zero exactly when no row has it |
| Dashboard.StatusCountsSum | app/dashboard/page.tsx:85-90 | the three counts never exceed the total, and equal it exactly when every status is one of the three column ids |
| Dashboard.CompletionRate | app/dashboard/page.tsx:91-92 | 0 when there are no tasks; otherwise the integer nearest to 100·done/total with halves rounded up, between 0 and 100, 0 for none done and 100 for all done |
| Dashboard.RoundingBounds | app/dashboard/page.tsx:91-92 | the rounding formula lies within half a step of the exact rate and between 0 and 100 |
| Dashboard.ComputeStats | app/dashboard/page.tsx:85-92 | the cards show the row count, the three status counts (together at most the total) and the completion rate, which is exactly `CompletionRate(done, total)` and so lies within 0..100 |
| Dashboard.RecentTasks | app/dashboard/page.tsx:197 | the first min(5, total) rows, in query order |
| Dashboard.StatusLabel | app/dashboard/page.tsx:215-219 | "To Do", "In Progress", and "Done" for any other status |
| Dashboard.StatusBadgeClass | app/dashboard/page.tsx:208-212 | blue for "todo", yellow for "inProgress", green for any other status |
| Dashboard.BadgeAgreesWithLabel | app/dashboard/page.tsx:208-219 | a badge is green exactly when it reads "Done", which is exactly when the status is neither "todo" nor "inProgress" |
| DashboardCharts.StatusData | components/DashboardCharts.tsx:39-55 | three bars labelled in board order, each counting its status, together at most the total |
| DashboardCharts.StatusDataMatchesStats | components/DashboardCharts.tsx:39-55 | the bars agree with the dashboard's summary cards |
| DashboardCharts.CompletionData | components/DashboardCharts.tsx:58-69 | completed plus incomplete equals the number of tasks, and completed equals the Done bar |
| DashboardCharts.Increment | components/DashboardCharts.tsx:79 | `set(key, (get(key) \|\| 0) + 1)`: the key's count goes up by one from 0 or its old count, every other key keeps its count, and a new key is appended to the insertion order |
| DashboardCharts.GroupByDate | components/DashboardCharts.tsx:73-80 | the map after the `forEach` has at most one key per row, and every listed key has a count |
| DashboardCharts.SumOtherKey | components/DashboardCharts.tsx:79 | setting a key outside a key list does not change that list's total |
| DashboardCharts.SumBump | components/DashboardCharts.tsx:79 | adding one to a listed key adds one to the total |
| DashboardCharts.DateCountSnoc | components/DashboardCharts.tsx:74-80 | the last task adds one to its own day's count and nothing to any other day's |
| DashboardCharts.IncrementExisting | components/DashboardCharts.tsx:79 | setting an existing key keeps the map well formed and adds one to its total |
| DashboardCharts.IncrementNew | components/DashboardCharts.tsx:79 | setting a new key appends it, keeps the map well formed and adds one to its total |
| DashboardCharts.IncrementSum | components/DashboardCharts.tsx:79 | every `set` keeps the map well formed and adds one to its total |
| DashboardCharts.GroupByDateSum | components/DashboardCharts.tsx:73-80 | after the grouping the keys are distinct, match the map's keys, have positive counts, and the counts add up to the number of tasks |
| DashboardCharts.GroupByDateKeys | components/DashboardCharts.tsx:73-80 | a day is a key exactly when some row falls on it |
| DashboardCharts.AbsentDayCountsZero | components/DashboardCharts.tsx:73-80 | a day that never became a key has no rows |
| DashboardCharts.GroupByDateCountStep | components/DashboardCharts.tsx:74-80 | visiting one more row keeps each key's count equal to the number of rows on that day |
| DashboardCharts.GroupByDateCounts | components/DashboardCharts.tsx:73-80 | a day is a key exactly when some task falls on it, and its count is the number of tasks on that day |
| DashboardCharts.BuildTimeline | components/DashboardCharts.tsx:73-80 | the `forEach` loop builds exactly the grouped map, so it is well formed, totals the number of tasks and counts each day's tasks |
| DashboardCharts.TimelineData | components/DashboardCharts.tsx:82-83 | one point per key, in the map's insertion order, carrying that key's count |
| DashboardCharts.TimelineShownIff | components/DashboardCharts.tsx:134 | the timeline chart is drawn exactly when there is at least one task |

## Left out

- Network, SQL and `NextResponse`: each request's outcome, and the row a query returns or that it throws, is an input. The `ORDER BY created_at DESC` ordering of GET is the database's, so the model takes rows in whatever order they arrive.
- Concurrency: actions are modelled one at a time, begun and finished with nothing in between. The `Begin…`/`Finish…` halves are there, but no interleaving is proved. For example, a second move finishing between a move's begin and its failed finish would be undone by that move's rollback to its whole-list snapshot.
- `ServerTasks.Merge`: a patch field is either absent (None) or a value. The source's spread `...updates` also copies a key that is present with value `undefined`, so `updateTask(id, { title: undefined })` clears the title there. The model keeps the old title, because a task field cannot be `undefined` in it. `ServerTasks.WithId` likewise does not model a runtime argument that carries its own `id` key; in `{ id, ...task }` such a key would override the generated id.
- Moves do not check the column in the store: `moveTask` accepts any column. The check that the drop target is a column lives in `handleDragEnd` (stores/boardStore.ts:155-183, components/Board.tsx:82-86). POST checks only that the column is truthy, so the server accepts any string (`TasksRoute.PostAcceptsAnyColumn`).
- The client's `ColumnId` type is not enforced at run time. The model's `Task.column` is therefore a string, and the column facts are conditional. `BoardStore.ColumnsPartition`, `DragDrop.AllColumnTasksComplete` and `DragDrop.DraggedTaskFound` give a full partition, or a found task, only for tasks whose column names one of the three ids. `DragDrop.UnknownColumnHidden` shows what happens to the others.
- Rendering: JSX, layout and dnd-kit's sensors are left out, including the 8 px pointer distance and the 100 ms touch delay, as are collision detection and overlays. So are the `mounted` hydration guard and the mount effect of components/Board.tsx:38-40; that effect only calls `initializeTasks`, which is `BoardStore.Store.InitializeTasks`. The few visible choices that depend on state are modelled: dialog heading, labels, delete button, colours, badges and chart visibility.
- `DashboardCharts.TimelineData`: the final sort by parsed date is left out, because it depends on `new Date` parsing of a locale-formatted label. The points come in the map's insertion order.
- Dates: `Date.now()` is the parameter `now`. `new Date(row.created_at).getTime()` is taken as already done (`createdAt: int`). `toLocaleDateString` is the function parameter `dateKey`.
- `Dashboard.CompletionRate`: uses exact rational arithmetic instead of floating point, so it does not model how `Math.round` behaves on binary doubles. At a tie the two can differ: 23 done of 40 is 57.5 exactly, so the model gives 58, while the double product is just below 57.5 and JavaScript rounds it to 57.
- `Decimal.IntToString`: does not model the exponent form `toString` uses for magnitudes of 10²¹ and above.
- `ServerTasks.CreatedIdsDistinct`: distinct ids need distinct clock readings. Two tasks created in the same millisecond get the same id, and then the first-match lookups touch only the first of them.
- `ServerTasks.TaskStore.GetTasks`: in the source it returns the stored array by reference, so callers can mutate the store's list through the result. The model returns a value.
- `ServerTasks.TaskStore`: the PUT and DELETE handlers for `/api/tasks/[id]` are not part of this model. The store's own update and delete are modelled.
- JSON bodies: POST's fields are modelled as optional strings. A field of another JSON type, such as a number, is not modelled, and neither is the falsiness of `0` or `false`.
- Logging: the `console.error` calls in the catch branches are left out (stores/boardStore.ts:63, 95, 127, 149, 179; app/api/tasks/route.ts:20, 60). They write to the console and change no state or response.
- Authentication, the database setup route, `localStorage`, the refresh button and the other pages are outside the modelled core.
