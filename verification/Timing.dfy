/** The timing report of the direct benchmark. */
module Timing {
  import opened Seqs
  import opened Percentiles

  /** One row of timing data; a missing time is 0. */
  datatype Fields = Fields(status: string, created: int, started: int, completed: int)

  predicate Counted(f: Fields) {
    f.status == "completed" && f.created > 0 && f.completed > 0
  }

  predicate CountedAndStarted(f: Fields) {
    Counted(f) && f.started > 0
  }

  predicate CountsFailed(f: Fields) {
    !Counted(f) && f.status == "failed"
  }

  function TotalTime(f: Fields): real {
    (f.completed - f.created) as real / 1000.0
  }

  function QueueTime(f: Fields): real {
    (f.started - f.created) as real / 1000.0
  }

  function GradeTime(f: Fields): real {
    (f.completed - f.started) as real / 1000.0
  }

  function Itself(x: real): real {
    x
  }

  function Sum(s: seq<real>): real {
    Total(s, Itself)
  }

  /** `arr.length > 0 ? arr.reduce((a, b) => a + b) / arr.length : 0`. */
  function Avg(s: seq<real>): real {
    if |s| > 0 then Sum(s) / |s| as real else 0.0
  }

  /** The lists and counts collected from the rows, before sorting. */
  ghost predicate Collected(rows: seq<Fields>, completedCount: nat, failedCount: nat,
                            queue: seq<real>, grade: seq<real>, total: seq<real>) {
    && completedCount == |Filter(rows, Counted)|
    && failedCount == |Filter(rows, CountsFailed)|
    && total == Map(Filter(rows, Counted), TotalTime)
    && queue == Map(Filter(rows, CountedAndStarted), QueueTime)
    && grade == Map(Filter(rows, CountedAndStarted), GradeTime)
  }

  function If<T>(c: bool, x: T): seq<T> {
    if c then [x] else []
  }

  lemma MapAppend(rows: seq<Fields>, f: Fields, p: Fields -> bool, g: Fields -> real)
    ensures Map(Filter(rows + [f], p), g) == Map(Filter(rows, p), g) + If(p(f), g(f))
    ensures |Filter(rows + [f], p)| == |Filter(rows, p)| + (if p(f) then 1 else 0)
  {
    FilterAppend(rows, f, p);
  }

  lemma CollectedAppend(rows: seq<Fields>, f: Fields, completedCount: nat, failedCount: nat,
                        queue: seq<real>, grade: seq<real>, total: seq<real>)
    requires Collected(rows, completedCount, failedCount, queue, grade, total)
    ensures Collected(rows + [f], if Counted(f) then completedCount + 1 else completedCount,
                      if CountsFailed(f) then failedCount + 1 else failedCount,
                      queue + If(CountedAndStarted(f), QueueTime(f)),
                      grade + If(CountedAndStarted(f), GradeTime(f)), total + If(Counted(f), TotalTime(f)))
  {
    MapAppend(rows, f, Counted, TotalTime);
    MapAppend(rows, f, CountedAndStarted, QueueTime);
    MapAppend(rows, f, CountedAndStarted, GradeTime);
    MapAppend(rows, f, CountsFailed, TotalTime);
  }

  /** The loop over the rows, before the lists are sorted. */
  method CollectRows(rows: seq<Fields>)
    returns (completedCount: nat, failedCount: nat, queue: seq<real>, grade: seq<real>, total: seq<real>)
    ensures Collected(rows, completedCount, failedCount, queue, grade, total)
  {
    completedCount, failedCount, queue, grade, total := 0, 0, [], [], [];
    var i := 0;
    while i < |rows|
      invariant 0 <= i <= |rows|
      invariant Collected(rows[..i], completedCount, failedCount, queue, grade, total)
    {
      var f := rows[i];
      assert rows[..i + 1] == rows[..i] + [f];
      CollectedAppend(rows[..i], f, completedCount, failedCount, queue, grade, total);
      completedCount, failedCount, queue, grade, total
        := AddRow(f, completedCount, failedCount, queue, grade, total);
      i := i + 1;
    }
    assert rows[..i] == rows;
  }

  /** The body of the loop. */
  method AddRow(f: Fields, completedBefore: nat, failedBefore: nat,
                queueBefore: seq<real>, gradeBefore: seq<real>, totalBefore: seq<real>)
    returns (completedCount: nat, failedCount: nat, queue: seq<real>, grade: seq<real>, total: seq<real>)
    ensures completedCount == if Counted(f) then completedBefore + 1 else completedBefore
    ensures failedCount == if CountsFailed(f) then failedBefore + 1 else failedBefore
    ensures queue == queueBefore + If(CountedAndStarted(f), QueueTime(f))
    ensures grade == gradeBefore + If(CountedAndStarted(f), GradeTime(f))
    ensures total == totalBefore + If(Counted(f), TotalTime(f))
  {
    completedCount, failedCount := completedBefore, failedBefore;
    queue, grade, total := queueBefore, gradeBefore, totalBefore;
    if f.status == "completed" && f.created > 0 && f.completed > 0 {
      completedCount := completedCount + 1;
      total := total + [(f.completed - f.created) as real / 1000.0];
      if f.started > 0 {
        queue := queue + [(f.started - f.created) as real / 1000.0];
        grade := grade + [(f.completed - f.started) as real / 1000.0];
      }
    } else if f.status == "failed" {
      failedCount := failedCount + 1;
    }
  }

  method Collect(rows: seq<Fields>)
    returns (completedCount: nat, failedCount: nat, queue: seq<real>, grade: seq<real>, total: seq<real>)
    ensures completedCount == |Filter(rows, Counted)| && failedCount == |Filter(rows, CountsFailed)|
    ensures total == Sort(Map(Filter(rows, Counted), TotalTime))
    ensures queue == Sort(Map(Filter(rows, CountedAndStarted), QueueTime))
    ensures grade == Sort(Map(Filter(rows, CountedAndStarted), GradeTime))
  {
    completedCount, failedCount, queue, grade, total := CollectRows(rows);
    total, queue, grade := Sort(total), Sort(queue), Sort(grade);
  }

  function Giving(p: Fields -> bool, g: Fields -> real, x: real): Fields -> bool {
    (f: Fields) => p(f) && g(f) == x
  }

  lemma OccursOnceMore(s: seq<real>, c: bool, y: real, x: real)
    ensures multiset(s + If(c, y))[x] == multiset(s)[x] + (if c && y == x then 1 else 0)
  {
    assert multiset(s + If(c, y)) == multiset(s) + multiset(If(c, y));
  }

  /** A time is in a list, sorted or not, as often as rows give it. */
  lemma {:induction false} Multiplicity(rows: seq<Fields>, p: Fields -> bool, g: Fields -> real, x: real)
    ensures multiset(Map(Filter(rows, p), g))[x] == |Filter(rows, Giving(p, g, x))|
    decreases |rows|
  {
    if rows != [] {
      var init, f := rows[..|rows| - 1], rows[|rows| - 1];
      Multiplicity(init, p, g, x);
      MapAppend(init, f, p, g);
      OccursOnceMore(Map(Filter(init, p), g), p(f), g(f), x);
      assert rows == init + [f];
    }
  }

  lemma {:induction false} SortedMultiplicity(rows: seq<Fields>, p: Fields -> bool, g: Fields -> real, x: real,
                                              kept: set<nat>)
    requires forall i: nat :: i in kept <==> i < |rows| && p(rows[i]) && g(rows[i]) == x
    ensures multiset(Sort(Map(Filter(rows, p), g)))[x] == |kept|
  {
    Multiplicity(rows, p, g, x);
    FilterSize(rows, Giving(p, g, x), kept);
  }

  /** A total time is listed as often as completed rows with both times took it from creation to completion. */
  lemma {:induction false} TotalByField(rows: seq<Fields>, x: real, kept: set<nat>)
    requires forall i: nat :: i in kept <==>
               i < |rows| && rows[i].status == "completed" && rows[i].created > 0 && rows[i].completed > 0
               && (rows[i].completed - rows[i].created) as real / 1000.0 == x
    ensures multiset(Sort(Map(Filter(rows, Counted), TotalTime)))[x] == |kept|
  {
    SortedMultiplicity(rows, Counted, TotalTime, x, kept);
  }

  /** A queue time, as often as such rows with a start time took it from creation to start. */
  lemma {:induction false} QueueByField(rows: seq<Fields>, x: real, kept: set<nat>)
    requires forall i: nat :: i in kept <==>
               i < |rows| && rows[i].status == "completed" && rows[i].created > 0 && rows[i].completed > 0
               && rows[i].started > 0 && (rows[i].started - rows[i].created) as real / 1000.0 == x
    ensures multiset(Sort(Map(Filter(rows, CountedAndStarted), QueueTime)))[x] == |kept|
  {
    SortedMultiplicity(rows, CountedAndStarted, QueueTime, x, kept);
  }

  /** A grade time, as often as those rows took it from start to completion. */
  lemma {:induction false} GradeByField(rows: seq<Fields>, x: real, kept: set<nat>)
    requires forall i: nat :: i in kept <==>
               i < |rows| && rows[i].status == "completed" && rows[i].created > 0 && rows[i].completed > 0
               && rows[i].started > 0 && (rows[i].completed - rows[i].started) as real / 1000.0 == x
    ensures multiset(Sort(Map(Filter(rows, CountedAndStarted), GradeTime)))[x] == |kept|
  {
    SortedMultiplicity(rows, CountedAndStarted, GradeTime, x, kept);
  }

  /** Completed jobs without both times are in neither count. */
  lemma {:induction false} CountsByField(rows: seq<Fields>, completed: set<nat>, failed: set<nat>)
    requires forall i: nat :: i in completed <==>
               i < |rows| && rows[i].status == "completed" && rows[i].created > 0 && rows[i].completed > 0
    requires forall i: nat :: i in failed <==> i < |rows| && rows[i].status == "failed"
    ensures |Filter(rows, Counted)| == |completed| && |Filter(rows, CountsFailed)| == |failed|
  {
    FilterSize(rows, Counted, completed);
    FilterSize(rows, CountsFailed, failed);
  }

  /** The average of a non-empty list, as often as there are elements, is their sum; of an empty list it is 0. */
  lemma AverageTimesLength(s: seq<real>)
    ensures Avg(s) * |s| as real == Total(s, (x: real) => x)
    ensures s == [] ==> Avg(s) == 0.0
  {
    SameTotal(s, Itself, (x: real) => x);
    if s != [] {
      DivideBack(Sum(s), |s| as real);
    }
  }

  lemma DivideBack(a: real, n: real)
    requires n != 0.0
    ensures (a / n) * n == a
  {
  }

  lemma {:induction false} SameTotal(s: seq<real>, f: real -> real, g: real -> real)
    requires forall x :: f(x) == g(x)
    ensures Total(s, f) == Total(s, g)
    decreases |s|
  {
    if s != [] {
      SameTotal(s[..|s| - 1], f, g);
    }
  }

  lemma SumSorted(s: seq<real>)
    ensures Sum(Sort(s)) == Sum(s) && Avg(Sort(s)) == Avg(s)
  {
    TotalPermutation(Sort(s), s, Itself);
  }

  lemma {:induction false} SumMap(s: seq<Fields>, f: Fields -> real)
    ensures Sum(Map(s, f)) == Total(s, f)
    decreases |s|
  {
    if s != [] {
      SumMap(s[..|s| - 1], f);
      assert Map(s, f)[..|s| - 1] == Map(s[..|s| - 1], f);
    }
  }

  lemma {:induction false} TimesAddUp(s: seq<Fields>)
    ensures Total(s, QueueTime) + Total(s, GradeTime) == Total(s, TotalTime)
    decreases |s|
  {
    if s != [] {
      TimesAddUp(s[..|s| - 1]);
    }
  }

  lemma {:induction false} SameRows(rows: seq<Fields>)
    requires forall f | f in rows :: Counted(f) ==> f.started > 0
    ensures Filter(rows, CountedAndStarted) == Filter(rows, Counted)
    decreases |rows|
  {
    if rows != [] {
      SameRows(rows[..|rows| - 1]);
      assert rows[|rows| - 1] in rows;
    }
  }

  /** The queue and grade lists always belong to the same rows, though each is sorted on its own. */
  lemma ListLengths(rows: seq<Fields>)
    ensures |Sort(Map(Filter(rows, CountedAndStarted), QueueTime))|
         == |Sort(Map(Filter(rows, CountedAndStarted), GradeTime))|
    ensures |Sort(Map(Filter(rows, CountedAndStarted), QueueTime))| <= |Sort(Map(Filter(rows, Counted), TotalTime))|
    decreases |rows|
  {
    if rows != [] {
      ListLengths(rows[..|rows| - 1]);
    }
  }

  /**
   * When every counted job has a start time, the sums, and so the averages, of queue and grade time add up
   * to those of the total, although the three lists were sorted independently.
   */
  lemma DecompositionSurvivesSorting(rows: seq<Fields>)
    requires forall f | f in rows :: Counted(f) ==> f.started > 0
    ensures var queue := Sort(Map(Filter(rows, CountedAndStarted), QueueTime));
            var grade := Sort(Map(Filter(rows, CountedAndStarted), GradeTime));
            var total := Sort(Map(Filter(rows, Counted), TotalTime));
            Sum(queue) + Sum(grade) == Sum(total) && Avg(queue) + Avg(grade) == Avg(total)
  {
    SameRows(rows);
    var counted := Filter(rows, Counted);
    var q, g, t := Map(counted, QueueTime), Map(counted, GradeTime), Map(counted, TotalTime);
    SumSorted(q);
    SumSorted(g);
    SumSorted(t);
    SumMap(counted, QueueTime);
    SumMap(counted, GradeTime);
    SumMap(counted, TotalTime);
    TimesAddUp(counted);
    AveragesAddUp(q, g, t);
  }

  lemma AveragesAddUp(q: seq<real>, g: seq<real>, t: seq<real>)
    requires |q| == |g| == |t| && Sum(q) + Sum(g) == Sum(t)
    ensures Avg(q) + Avg(g) == Avg(t)
  {
    if |t| > 0 {
      Share(Sum(q), Sum(g), |t| as real);
    }
  }

  lemma Share(a: real, b: real, n: real)
    requires n != 0.0
    ensures a / n + b / n == (a + b) / n
  {
  }
}
