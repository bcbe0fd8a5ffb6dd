/**
 * The dashboard's chart data (components/DashboardCharts.tsx): tasks per
 * status for the bar chart, completed against incomplete for the pie
 * chart, and tasks created per day for the timeline.
 *
 * The timeline is built in a JavaScript `Map`, which remembers the order
 * its keys were first set in; it is modelled as that key order together
 * with the count per key. How a timestamp becomes a day label
 * (`toLocaleDateString`) is the parameter `dateKey`.
 */
module DashboardCharts {
  import opened Seqs
  import opened Dashboard

  const TodoFill: string := "#3B82F6"
  const InProgressFill: string := "#EAB308"
  const DoneFill: string := "#16A34A"
  const IncompleteFill: string := "#D1D5DB"

  datatype StatusEntry = StatusEntry(status: string, count: nat, fill: string)

  /** `statusData`: one bar per column, in board order, each counting the rows with exactly that status. */
  function StatusData(tasks: seq<DbTask>): (r: seq<StatusEntry>)
    ensures |r| == 3
    ensures r[0].status == "To Do" && r[1].status == "In Progress" && r[2].status == "Done"
    ensures r[0].count == StatusCount(tasks, "todo")
    ensures r[1].count == StatusCount(tasks, "inProgress")
    ensures r[2].count == StatusCount(tasks, "done")
    ensures r[0].count + r[1].count + r[2].count <= |tasks|
  {
    StatusCountsSum(tasks);
    [ StatusEntry("To Do", StatusCount(tasks, "todo"), TodoFill),
      StatusEntry("In Progress", StatusCount(tasks, "inProgress"), InProgressFill),
      StatusEntry("Done", StatusCount(tasks, "done"), DoneFill) ]
  }

  /** The bars agree with the page's summary cards. */
  lemma StatusDataMatchesStats(tasks: seq<DbTask>)
    ensures StatusData(tasks)[0].count == ComputeStats(tasks).todo
    ensures StatusData(tasks)[1].count == ComputeStats(tasks).inProgress
    ensures StatusData(tasks)[2].count == ComputeStats(tasks).done
  {
  }

  datatype PieEntry = PieEntry(name: string, value: nat, fill: string)

  /** `completionData`: rows whose status is "done" against all the others. */
  function CompletionData(tasks: seq<DbTask>): (r: seq<PieEntry>)
    ensures |r| == 2 && r[0].name == "Completed" && r[1].name == "Incomplete"
    ensures r[0].value + r[1].value == |tasks|
    ensures r[0].value == StatusData(tasks)[2].count
  {
    FilterComplement(tasks, HasStatus("done"), LacksStatus("done"));
    [ PieEntry("Completed", |Filter(tasks, HasStatus("done"))|, DoneFill),
      PieEntry("Incomplete", |Filter(tasks, LacksStatus("done"))|, IncompleteFill) ]
  }

  /** The timeline's `Map<string, number>`: its keys in insertion order and the count per key. */
  datatype Timeline = Timeline(keys: seq<string>, counts: map<string, nat>)

  /** `timelineMap.set(key, (timelineMap.get(key) || 0) + 1)`: a key set for the first time goes last. */
  function Increment(g: Timeline, key: string): (r: Timeline)
    ensures key in r.counts && r.counts[key] == (if key in g.counts then g.counts[key] else 0) + 1
    ensures forall k :: k != key ==> (k in r.counts <==> k in g.counts)
    ensures forall k :: k != key && k in g.counts ==> r.counts[k] == g.counts[k]
    ensures key in g.counts ==> r.keys == g.keys
    ensures key !in g.counts ==> r.keys == g.keys + [key]
  {
    var current := if key in g.counts then g.counts[key] else 0;
    Timeline(if key in g.counts then g.keys else g.keys + [key], g.counts[key := current + 1])
  }

  /** The map after the `forEach` has visited every row, in row order. */
  function GroupByDate(tasks: seq<DbTask>, dateKey: string -> string): (r: Timeline)
    ensures |r.keys| <= |tasks|
    ensures forall i :: 0 <= i < |r.keys| ==> r.keys[i] in r.counts
  {
    if |tasks| == 0 then Timeline([], map[])
    else Increment(GroupByDate(tasks[..|tasks| - 1], dateKey), dateKey(tasks[|tasks| - 1].createdAt))
  }

  /** Keys are listed once each, exactly the map's keys, each with a positive count. */
  ghost predicate WellFormed(g: Timeline)
  {
    && (forall i, j :: 0 <= i < j < |g.keys| ==> g.keys[i] != g.keys[j])
    && (forall k :: k in g.counts <==> k in g.keys)
    && (forall k :: k in g.counts ==> g.counts[k] >= 1)
  }

  /** The counts of `keys`, added up. */
  function Sum(keys: seq<string>, counts: map<string, nat>): nat
    requires forall i :: 0 <= i < |keys| ==> keys[i] in counts
  {
    if |keys| == 0 then 0 else Sum(keys[..|keys| - 1], counts) + counts[keys[|keys| - 1]]
  }

  lemma {:induction false} SumOtherKey(keys: seq<string>, counts: map<string, nat>, key: string, v: nat)
    requires forall i :: 0 <= i < |keys| ==> keys[i] in counts && keys[i] != key
    ensures Sum(keys, counts[key := v]) == Sum(keys, counts)
  {
    if |keys| > 0 {
      SumOtherKey(keys[..|keys| - 1], counts, key, v);
    }
  }

  lemma {:induction false} SumBump(keys: seq<string>, counts: map<string, nat>, key: string)
    requires forall i :: 0 <= i < |keys| ==> keys[i] in counts
    requires forall i, j :: 0 <= i < j < |keys| ==> keys[i] != keys[j]
    requires key in keys && key in counts
    ensures Sum(keys, counts[key := counts[key] + 1]) == Sum(keys, counts) + 1
  {
    var init := keys[..|keys| - 1];
    if keys[|keys| - 1] == key {
      SumOtherKey(init, counts, key, counts[key] + 1);
    } else {
      assert key in init;
      SumBump(init, counts, key);
    }
  }

  function DateIs(dateKey: string -> string, k: string): DbTask -> bool
  {
    (t: DbTask) => dateKey(t.createdAt) == k
  }

  /** The number of rows whose day label is `k`. */
  function DateCount(tasks: seq<DbTask>, dateKey: string -> string, k: string): nat
  {
    |Filter(tasks, DateIs(dateKey, k))|
  }

  /** The last row adds one to its own day's count and nothing to any other day's. */
  lemma DateCountSnoc(tasks: seq<DbTask>, dateKey: string -> string, k: string)
    requires |tasks| > 0
    ensures DateCount(tasks, dateKey, k)
            == DateCount(tasks[..|tasks| - 1], dateKey, k)
               + if dateKey(tasks[|tasks| - 1].createdAt) == k then 1 else 0
  {
    var init, last := tasks[..|tasks| - 1], tasks[|tasks| - 1];
    assert tasks == init + [last];
    FilterAppend(init, [last], DateIs(dateKey, k));
  }

  /** A day that is not a key of the grouped map has no rows. */
  lemma AbsentDayCountsZero(tasks: seq<DbTask>, dateKey: string -> string, k: string)
    requires k !in GroupByDate(tasks, dateKey).counts
    ensures DateCount(tasks, dateKey, k) == 0
  {
    GroupByDateKeys(tasks, dateKey);
    FilterEmptyIff(tasks, DateIs(dateKey, k));
  }

  /** Setting a key that is already there keeps the key order and adds one to the total. */
  lemma IncrementExisting(g: Timeline, key: string)
    requires WellFormed(g) && key in g.counts
    ensures WellFormed(Increment(g, key))
    ensures Sum(Increment(g, key).keys, Increment(g, key).counts) == Sum(g.keys, g.counts) + 1
  {
    assert Increment(g, key) == Timeline(g.keys, g.counts[key := g.counts[key] + 1]);
    SumBump(g.keys, g.counts, key);
  }

  /** Setting a new key appends it and adds one to the total. */
  lemma IncrementNew(g: Timeline, key: string)
    requires WellFormed(g) && key !in g.counts
    ensures WellFormed(Increment(g, key))
    ensures Sum(Increment(g, key).keys, Increment(g, key).counts) == Sum(g.keys, g.counts) + 1
  {
    var keys := g.keys + [key];
    var counts := g.counts[key := 1];
    assert Increment(g, key) == Timeline(keys, counts);
    assert forall i :: 0 <= i < |g.keys| ==> g.keys[i] in g.counts;
    SumOtherKey(g.keys, g.counts, key, 1);
    assert keys[..|g.keys|] == g.keys;
    assert Sum(keys, counts) == Sum(g.keys, counts) + 1;
  }

  /** Setting one key keeps the map well formed and adds one to its total. */
  lemma IncrementSum(g: Timeline, key: string)
    requires WellFormed(g)
    ensures WellFormed(Increment(g, key))
    ensures Sum(Increment(g, key).keys, Increment(g, key).counts) == Sum(g.keys, g.counts) + 1
  {
    if key in g.counts {
      IncrementExisting(g, key);
    } else {
      IncrementNew(g, key);
    }
  }

  /** The grouped map is well formed and its counts add up to the number of rows. */
  lemma {:induction false} GroupByDateSum(tasks: seq<DbTask>, dateKey: string -> string)
    ensures WellFormed(GroupByDate(tasks, dateKey))
    ensures Sum(GroupByDate(tasks, dateKey).keys, GroupByDate(tasks, dateKey).counts) == |tasks|
  {
    if |tasks| > 0 {
      GroupByDateSum(tasks[..|tasks| - 1], dateKey);
      IncrementSum(GroupByDate(tasks[..|tasks| - 1], dateKey), dateKey(tasks[|tasks| - 1].createdAt));
    }
  }

  /** The map's keys are exactly the rows' day labels. */
  lemma {:induction false} GroupByDateKeys(tasks: seq<DbTask>, dateKey: string -> string)
    ensures forall k :: k in GroupByDate(tasks, dateKey).counts
                        <==> exists i :: 0 <= i < |tasks| && dateKey(tasks[i].createdAt) == k
  {
    if |tasks| > 0 {
      var init := tasks[..|tasks| - 1];
      GroupByDateKeys(init, dateKey);
      forall k | exists i :: 0 <= i < |tasks| && dateKey(tasks[i].createdAt) == k
        ensures k in GroupByDate(tasks, dateKey).counts
      {
        var i :| 0 <= i < |tasks| && dateKey(tasks[i].createdAt) == k;
        if i < |tasks| - 1 {
          assert init[i] == tasks[i];
        }
      }
      forall k | k in GroupByDate(tasks, dateKey).counts
        ensures exists i :: 0 <= i < |tasks| && dateKey(tasks[i].createdAt) == k
      {
        if k in GroupByDate(init, dateKey).counts {
          var i :| 0 <= i < |init| && dateKey(init[i].createdAt) == k;
          assert tasks[i] == init[i];
        }
      }
    }
  }

  /** One more row keeps every day's count equal to the number of rows on that day. */
  lemma GroupByDateCountStep(tasks: seq<DbTask>, dateKey: string -> string, k: string)
    requires |tasks| > 0
    requires var g0 := GroupByDate(tasks[..|tasks| - 1], dateKey);
             k in g0.counts ==> g0.counts[k] == DateCount(tasks[..|tasks| - 1], dateKey, k)
    requires k in GroupByDate(tasks, dateKey).counts
    ensures GroupByDate(tasks, dateKey).counts[k] == DateCount(tasks, dateKey, k)
  {
    var init := tasks[..|tasks| - 1];
    var g0 := GroupByDate(init, dateKey);
    assert GroupByDate(tasks, dateKey) == Increment(g0, dateKey(tasks[|tasks| - 1].createdAt));
    DateCountSnoc(tasks, dateKey, k);
    if k !in g0.counts {
      AbsentDayCountsZero(init, dateKey, k);
    }
  }

  /**
   * Every row counts once towards its own day: the map's keys are exactly
   * the rows' day labels, and each count is the number of rows with that label.
   */
  lemma {:induction false} GroupByDateCounts(tasks: seq<DbTask>, dateKey: string -> string)
    ensures forall k :: k in GroupByDate(tasks, dateKey).counts
                        <==> exists i :: 0 <= i < |tasks| && dateKey(tasks[i].createdAt) == k
    ensures forall k :: k in GroupByDate(tasks, dateKey).counts
                        ==> GroupByDate(tasks, dateKey).counts[k] == DateCount(tasks, dateKey, k)
  {
    GroupByDateKeys(tasks, dateKey);
    if |tasks| > 0 {
      GroupByDateCounts(tasks[..|tasks| - 1], dateKey);
      forall k | k in GroupByDate(tasks, dateKey).counts
        ensures GroupByDate(tasks, dateKey).counts[k] == DateCount(tasks, dateKey, k)
      {
        GroupByDateCountStep(tasks, dateKey, k);
      }
    }
  }

  /** The `forEach` that fills `timelineMap`, one row at a time. */
  method BuildTimeline(tasks: seq<DbTask>, dateKey: string -> string) returns (g: Timeline)
    ensures g == GroupByDate(tasks, dateKey)
    ensures WellFormed(g) && Sum(g.keys, g.counts) == |tasks|
    ensures forall k :: k in g.counts ==> g.counts[k] == DateCount(tasks, dateKey, k)
  {
    var keys: seq<string> := [];
    var counts: map<string, nat> := map[];
    for i := 0 to |tasks|
      invariant Timeline(keys, counts) == GroupByDate(tasks[..i], dateKey)
    {
      var date := dateKey(tasks[i].createdAt);
      var current := if date in counts then counts[date] else 0;
      if date !in counts {
        keys := keys + [date];
      }
      counts := counts[date := current + 1];
      assert tasks[..i + 1][..i] == tasks[..i];
    }
    assert tasks[..|tasks|] == tasks;
    g := Timeline(keys, counts);
    GroupByDateSum(tasks, dateKey);
    GroupByDateCounts(tasks, dateKey);
  }

  datatype TimelinePoint = TimelinePoint(date: string, count: nat)

  /** `Array.from(timelineMap.entries())`, one point per key in insertion order (before sorting). */
  function TimelineData(g: Timeline): (r: seq<TimelinePoint>)
    requires forall i :: 0 <= i < |g.keys| ==> g.keys[i] in g.counts
    ensures |r| == |g.keys|
    ensures forall i :: 0 <= i < |r| ==> r[i].date == g.keys[i] && r[i].count == g.counts[g.keys[i]]
    decreases |g.keys|
  {
    if |g.keys| == 0 then []
    else
      var rest := TimelineData(Timeline(g.keys[1..], g.counts));
      [TimelinePoint(g.keys[0], g.counts[g.keys[0]])] + rest
  }

  /** The timeline chart is drawn when there is at least one point, that is, when there is at least one row. */
  lemma TimelineShownIff(tasks: seq<DbTask>, dateKey: string -> string)
    ensures var g := GroupByDate(tasks, dateKey);
            WellFormed(g) && (|TimelineData(g)| > 0 <==> |tasks| > 0)
  {
    GroupByDateSum(tasks, dateKey);
  }
}
