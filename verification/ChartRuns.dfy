/** Runs of the chart model in which appends, changes of the window and resets are mixed: what
    is in the chart is what no cutoff since its append has passed. */
module ChartRuns {
  import opened Wrappers
  import opened ChartSeries
  import Sequences

  datatype Op = Appending(batch: Batch) | Resizing(window: int) | Resetting

  /** The object's view and its window. */
  datatype State = State(chart: Chart, window: int)

  function Next(s: State, op: Op): State
    requires forall a: Axis :: a in s.chart.tables
  {
    match op
    case Appending(batch) => s.(chart := Append(s.chart, batch, s.window))
    case Resizing(window) => if window == s.window then s else State(Resized(s.chart, window), window)
    case Resetting => s.(chart := EMPTY)
  }

  /** A run of a model that was constructed with a window. */
  function Run(window: int, ops: seq<Op>): (s: State)
    ensures forall a: Axis :: a in s.chart.tables
  {
    if ops == [] then State(EMPTY, window) else Next(Run(window, ops[..|ops| - 1]), ops[|ops| - 1])
  }

  // The history, without the chart.

  /** Everything appended since the last reset. */
  function Appended(ops: seq<Op>): Batch {
    if ops == [] then []
    else
      var init, op := ops[..|ops| - 1], ops[|ops| - 1];
      match op
      case Appending(batch) => Appended(init) + batch
      case Resizing(_) => Appended(init)
      case Resetting => []
  }

  /** The window that was set last. */
  function WindowAfter(window: int, ops: seq<Op>): int {
    if ops == [] then window
    else if ops[|ops| - 1].Resizing? then ops[|ops| - 1].window
    else WindowAfter(window, ops[..|ops| - 1])
  }

  /** A timestamp is inside the window that ends at the newest appended one. */
  predicate Inside(window: int, ops: seq<Op>, t: int) {
    var newest := Newest(None, AllPoints(Appended(ops)));
    newest.Some? && t >= newest.value - WindowAfter(window, ops)
  }

  predicate HasTime(points: seq<Point>, t: int) { exists p <- points :: p.time == t }

  /** The k-th operation appended the timestamp to the axis. */
  predicate AppendsTime(ops: seq<Op>, k: nat, axis: Axis, t: int) {
    k < |ops| && ops[k].Appending? && HasTime(PointsOf(ops[k].batch, axis), t)
  }

  /** Nothing has taken the timestamp in the j-th operation. */
  predicate InsideAt(window: int, ops: seq<Op>, j: nat, t: int)
    requires 0 < j <= |ops|
  {
    !ops[j - 1].Resetting? && Inside(window, ops[..j], t)
  }

  /** The timestamp has been inside the window after every operation from the k-th on, and no
      reset came. */
  predicate StaysInside(window: int, ops: seq<Op>, k: nat, t: int) {
    forall j :: k < j <= |ops| ==> InsideAt(window, ops, j, t)
  }

  /** The same, step by step. */
  predicate Retained(window: int, ops: seq<Op>, axis: Axis, t: int) {
    ops != [] && !ops[|ops| - 1].Resetting? && Inside(window, ops, t) &&
    (Retained(window, ops[..|ops| - 1], axis, t) || AppendsTime(ops, |ops| - 1, axis, t))
  }

  lemma StaysLonger(window: int, ops: seq<Op>, k: nat, t: int)
    requires ops != [] && k < |ops|
    ensures StaysInside(window, ops, k, t) <==>
            StaysInside(window, ops[..|ops| - 1], k, t) && !ops[|ops| - 1].Resetting? && Inside(window, ops, t)
  {
    var init := ops[..|ops| - 1];
    assert ops[..|ops|] == ops;
    assert InsideAt(window, ops, |ops|, t) <==> !ops[|ops| - 1].Resetting? && Inside(window, ops, t);
    forall j | 0 < j <= |init|
      ensures InsideAt(window, init, j, t) <==> InsideAt(window, ops, j, t)
    {
      assert init[..j] == ops[..j];
    }
  }

  /** The k-th operation brought the timestamp and nothing since has taken it. */
  predicate Survives(window: int, ops: seq<Op>, k: nat, axis: Axis, t: int) {
    AppendsTime(ops, k, axis, t) && StaysInside(window, ops, k, t)
  }

  lemma SurvivesLonger(window: int, ops: seq<Op>, k: nat, axis: Axis, t: int)
    requires ops != [] && !ops[|ops| - 1].Resetting? && Inside(window, ops, t)
    ensures k < |ops| - 1 ==> (Survives(window, ops, k, axis, t) <==> Survives(window, ops[..|ops| - 1], k, axis, t))
    ensures k == |ops| - 1 ==> (Survives(window, ops, k, axis, t) <==> AppendsTime(ops, k, axis, t))
  {
    if k < |ops| {
      StaysLonger(window, ops, k, t);
    }
  }

  lemma {:induction false} RetainedMeans(window: int, ops: seq<Op>, axis: Axis, t: int)
    ensures Retained(window, ops, axis, t) <==> exists k :: 0 <= k < |ops| && Survives(window, ops, k, axis, t)
    decreases |ops|
  {
    if ops != [] {
      var init, last := ops[..|ops| - 1], |ops| - 1;
      RetainedMeans(window, init, axis, t);
      if Retained(window, ops, axis, t) {
        if Retained(window, init, axis, t) {
          var k :| 0 <= k < |init| && Survives(window, init, k, axis, t);
          SurvivesLonger(window, ops, k, axis, t);
          assert Survives(window, ops, k, axis, t);
        } else {
          SurvivesLonger(window, ops, last, axis, t);
          assert Survives(window, ops, last, axis, t);
        }
      }
      if k :| 0 <= k < |ops| && Survives(window, ops, k, axis, t) {
        StaysLonger(window, ops, k, t);
        SurvivesLonger(window, ops, k, axis, t);
        assert k < last ==> Survives(window, init, k, axis, t);
      }
    }
  }

  // One operation.

  lemma AppendedNewest(ops: seq<Op>, batch: Batch)
    ensures Appended(ops + [Appending(batch)]) == Appended(ops) + batch
    ensures AllPoints(Appended(ops) + batch) == AllPoints(Appended(ops)) + AllPoints(batch)
    ensures Newest(None, AllPoints(Appended(ops) + batch)) ==
            Newest(Newest(None, AllPoints(Appended(ops))), AllPoints(batch))
  {
    assert (ops + [Appending(batch)])[..|ops|] == ops;
    AllPointsConcat(Appended(ops), batch);
    NewestConcat(None, AllPoints(Appended(ops)), AllPoints(batch));
  }

  lemma {:induction false} PutAllTimes(m: Table, points: seq<Point>, t: int)
    ensures t in PutAll(m, points) <==> t in m || HasTime(points, t)
    decreases |points|
  {
    if points != [] {
      var init, last := points[..|points| - 1], points[|points| - 1];
      PutAllTimes(m, init, t);
      assert points == init + [last] && last in points;
    }
  }

  /** Putting the same points gives the same value, unless the tables differ at it before. */
  lemma {:induction false} PutAllAgrees(m: Table, n: Table, points: seq<Point>, t: int)
    requires t in m ==> t in n && m[t] == n[t]
    ensures t in PutAll(m, points) ==> t in PutAll(n, points) && PutAll(m, points)[t] == PutAll(n, points)[t]
    decreases |points|
  {
    if points != [] {
      PutAllAgrees(m, n, points[..|points| - 1], t);
    }
  }

  /** The newest timestamp, the window, and what an axis holds at a timestamp. */
  ghost predicate Means(window: int, ops: seq<Op>, axis: Axis, t: int) {
    var s := Run(window, ops);
    var table, values := s.chart.tables[axis], LastValues(PointsOf(Appended(ops), axis));
    && s.window == WindowAfter(window, ops)
    && s.chart.newest == Newest(None, AllPoints(Appended(ops)))
    && (t in table <==> Retained(window, ops, axis, t))
    && (t in table ==> t in values && table[t] == values[t])
  }

  lemma RunLast(window: int, ops: seq<Op>, op: Op)
    ensures Run(window, ops + [op]) == Next(Run(window, ops), op)
    ensures (ops + [op])[..|ops|] == ops
  {
    assert (ops + [op])[..|ops|] == ops;
  }

  lemma RetainedLast(window: int, ops: seq<Op>, op: Op, axis: Axis, t: int)
    ensures Retained(window, ops + [op], axis, t) <==>
            !op.Resetting? && Inside(window, ops + [op], t) &&
            (Retained(window, ops, axis, t) || (op.Appending? && HasTime(PointsOf(op.batch, axis), t)))
  {
    assert (ops + [op])[..|ops|] == ops;
  }

  /** An append of no points changes nothing; any other puts the points and evicts. */
  lemma AppendMeans(window: int, ops: seq<Op>, batch: Batch, axis: Axis, t: int)
    requires Means(window, ops, axis, t)
    ensures Means(window, ops + [Appending(batch)], axis, t)
  {
    var s, points := Run(window, ops), PointsOf(batch, axis);
    var table := s.chart.tables[axis];
    RunLast(window, ops, Appending(batch));
    RetainedLast(window, ops, Appending(batch), axis, t);
    AppendedNewest(ops, batch);
    PointsConcat(Appended(ops), batch, axis);
    if AllPoints(batch) == [] {
      NoPoints(batch, axis);
      AppendsNothing(window, ops, batch, axis);
    } else {
      NewestGrows(s.chart.newest, AllPoints(batch));
      PutAllTimes(table, points, t);
      PutAllConcat(map[], PointsOf(Appended(ops), axis), points);
      PutAllAgrees(table, LastValues(PointsOf(Appended(ops), axis)), points, t);
    }
  }

  lemma AppendsNothing(window: int, ops: seq<Op>, batch: Batch, axis: Axis)
    requires AllPoints(batch) == [] && PointsOf(batch, axis) == []
    ensures PointsOf(Appended(ops), axis) + PointsOf(batch, axis) == PointsOf(Appended(ops), axis)
    ensures AllPoints(Appended(ops)) + AllPoints(batch) == AllPoints(Appended(ops))
  {
  }

  lemma ResizeMeans(window: int, ops: seq<Op>, wider: int, axis: Axis, t: int)
    requires Means(window, ops, axis, t)
    ensures Means(window, ops + [Resizing(wider)], axis, t)
  {
    RunLast(window, ops, Resizing(wider));
    RetainedLast(window, ops, Resizing(wider), axis, t);
  }

  lemma ResetMeans(window: int, ops: seq<Op>, axis: Axis, t: int)
    requires Means(window, ops, axis, t)
    ensures Means(window, ops + [Resetting], axis, t)
  {
    RunLast(window, ops, Resetting);
    RetainedLast(window, ops, Resetting, axis, t);
  }

  lemma {:induction false} RunMeans(window: int, ops: seq<Op>, axis: Axis, t: int)
    ensures Means(window, ops, axis, t)
    decreases |ops|
  {
    if ops != [] {
      var init, op := ops[..|ops| - 1], ops[|ops| - 1];
      RunMeans(window, init, axis, t);
      assert ops == init + [op];
      match op
      case Appending(batch) => AppendMeans(window, init, batch, axis, t);
      case Resizing(wider) => ResizeMeans(window, init, wider, axis, t);
      case Resetting => ResetMeans(window, init, axis, t);
    }
  }

  /** After any appends, changes of the window and resets, a timestamp is in the chart of an
      axis if and only if some append brought it and it has been inside the window after every
      operation since, with no reset; and its value is the last one appended since the reset. */
  lemma EveryRunIsOffline(window: int, ops: seq<Op>, axis: Axis, t: int)
    ensures var table := Run(window, ops).chart.tables[axis];
            var values := LastValues(PointsOf(Appended(ops), axis));
            && (t in table <==>
                  exists k :: 0 <= k < |ops| && Survives(window, ops, k, axis, t))
            && (t in table ==> t in values && table[t] == values[t])
    ensures Run(window, ops).chart.newest == Newest(None, AllPoints(Appended(ops)))
    ensures Run(window, ops).window == WindowAfter(window, ops)
  {
    RunMeans(window, ops, axis, t);
    RetainedMeans(window, ops, axis, t);
  }
}
