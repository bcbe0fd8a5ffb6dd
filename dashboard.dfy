/**
 * The dashboard page's statistics (app/dashboard/page.tsx), computed from
 * the rows of the tasks table: the total, a count per status, the
 * completion rate, the five rows listed as recent, and the label each
 * status is shown with. A row's status is whatever string the table holds.
 */
module Dashboard {
  import opened Seqs

  /** A tasks-table row as the page reads it. */
  datatype DbTask = DbTask(id: int, title: string, description: string, status: string, createdAt: string)

  function HasStatus(status: string): DbTask -> bool
  {
    (t: DbTask) => t.status == status
  }

  function LacksStatus(status: string): DbTask -> bool
  {
    (t: DbTask) => t.status != status
  }

  /** `tasks.filter(task => task.status === status).length`. */
  function StatusCount(tasks: seq<DbTask>, status: string): (n: nat)
    ensures n <= |tasks|
  {
    |Filter(tasks, HasStatus(status))|
  }

  /** A status with no row counts zero, and a count is positive when some row has the status. */
  lemma StatusCountZero(tasks: seq<DbTask>, status: string)
    ensures StatusCount(tasks, status) == 0 <==> forall i :: 0 <= i < |tasks| ==> tasks[i].status != status
  {
    FilterEmptyIff(tasks, HasStatus(status));
  }

  /**
   * The three per-status counts never exceed the total, and they add up to
   * it exactly when every row's status is one of the three column ids.
   */
  lemma {:induction false} StatusCountsSum(tasks: seq<DbTask>)
    ensures StatusCount(tasks, "todo") + StatusCount(tasks, "inProgress")
            + StatusCount(tasks, "done") <= |tasks|
    ensures StatusCount(tasks, "todo") + StatusCount(tasks, "inProgress")
            + StatusCount(tasks, "done") == |tasks|
            <==> forall i :: 0 <= i < |tasks| ==> tasks[i].status in {"todo", "inProgress", "done"}
  {
    if |tasks| > 0 {
      StatusCountsSum(tasks[1..]);
      assert forall i :: 0 < i < |tasks| ==> tasks[i] == tasks[1..][i - 1];
    }
  }

  /**
   * `Math.round((done / total) * 100)` for a positive total, else 0, in
   * exact arithmetic: the integer nearest to 100·done/total, halves
   * rounded up.
   */
  function CompletionRate(done: nat, total: nat): (rate: nat)
    requires done <= total
    ensures rate <= 100
    ensures total == 0 ==> rate == 0
    ensures total > 0 ==> 2 * total * rate <= 200 * done + total < 2 * total * (rate + 1)
    ensures done == 0 ==> rate == 0
    ensures total > 0 && done == total ==> rate == 100
  {
    if total > 0 then
      var rate := (200 * done + total) / (2 * total);
      RoundingBounds(done, total, rate);
      rate
    else 0
  }

  lemma {:induction false} MulMonotone(a: nat, b: int, c: int)
    requires b <= c
    ensures a * b <= a * c
  {
    if a > 0 {
      MulMonotone(a - 1, b, c);
      assert a * b == (a - 1) * b + b;
      assert a * c == (a - 1) * c + c;
    }
  }

  lemma RoundingBounds(done: nat, total: nat, rate: nat)
    requires 0 < total && done <= total
    requires rate == (200 * done + total) / (2 * total)
    ensures 2 * total * rate <= 200 * done + total < 2 * total * (rate + 1)
    ensures rate <= 100
    ensures done == 0 ==> rate == 0
    ensures done == total ==> rate == 100
  {
    var n, d := 200 * done + total, 2 * total;
    assert d * rate <= n < d * rate + d;
    assert d * (rate + 1) == d * rate + d;
    assert n < d * 101;
    if rate >= 101 {
      MulMonotone(d, 101, rate);
    }
    if done == 0 && rate >= 1 {
      MulMonotone(d, 1, rate);
    }
    if done == total {
      assert d * 100 <= n;
      if rate <= 99 {
        MulMonotone(d, rate + 1, 100);
      }
    }
  }

  datatype Stats = Stats(total: nat, todo: nat, inProgress: nat, done: nat, completionRate: nat)

  /** The four cards and the completion bar of the page. */
  function ComputeStats(tasks: seq<DbTask>): (s: Stats)
    ensures s.total == |tasks|
    ensures s.todo == StatusCount(tasks, "todo") && s.inProgress == StatusCount(tasks, "inProgress")
    ensures s.done == StatusCount(tasks, "done")
    ensures s.todo + s.inProgress + s.done <= s.total
    ensures s.completionRate <= 100 && (s.total == 0 ==> s.completionRate == 0)
    ensures s.completionRate == CompletionRate(s.done, s.total)
  {
    StatusCountsSum(tasks);
    var done := StatusCount(tasks, "done");
    Stats(|tasks|, StatusCount(tasks, "todo"), StatusCount(tasks, "inProgress"), done,
          CompletionRate(done, |tasks|))
  }

  /** `tasks.slice(0, 5)`: at most the first five rows, in query order. */
  function RecentTasks(tasks: seq<DbTask>): (r: seq<DbTask>)
    ensures |r| == if |tasks| < 5 then |tasks| else 5
    ensures r == tasks[..|r|]
  {
    if |tasks| < 5 then tasks else tasks[..5]
  }

  /** The badge text of a recent task: any status other than the first two reads "Done". */
  function StatusLabel(status: string): (text: string)
    ensures status == "todo" ==> text == "To Do"
    ensures status == "inProgress" ==> text == "In Progress"
    ensures status != "todo" && status != "inProgress" ==> text == "Done"
  {
    if status == "todo" then "To Do"
    else if status == "inProgress" then "In Progress"
    else "Done"
  }

  /** The badge colours of a recent task, chosen by the same three-way test as its label. */
  function StatusBadgeClass(status: string): (classes: string)
    ensures status == "todo" ==> classes == "bg-blue-100 text-blue-800"
    ensures status == "inProgress" ==> classes == "bg-yellow-100 text-yellow-800"
    ensures status != "todo" && status != "inProgress" ==> classes == "bg-green-100 text-green-800"
  {
    if status == "todo" then "bg-blue-100 text-blue-800"
    else if status == "inProgress" then "bg-yellow-100 text-yellow-800"
    else "bg-green-100 text-green-800"
  }

  /** A badge is green exactly when it reads "Done", so an unknown status is shown as done. */
  lemma BadgeAgreesWithLabel(status: string)
    ensures StatusBadgeClass(status) == "bg-green-100 text-green-800" <==> StatusLabel(status) == "Done"
    ensures StatusLabel(status) == "Done" <==> status != "todo" && status != "inProgress"
  {
  }
}
