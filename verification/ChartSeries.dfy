/** What the chart model means offline: for each axis the last value appended for each
    timestamp, restricted to the time window that ends at the newest timestamp. */
module ChartSeries {
  import opened Wrappers
  import Sequences

  datatype Axis = Fx | Fy | Fz | Tx | Ty | Tz

  /** A chart point: a nanosecond timestamp and a value that is only compared for equality. */
  datatype Point = Point(time: int, value: int)

  datatype AxisBatch = AxisBatch(axis: Axis, points: seq<Point>)

  type Batch = seq<AxisBatch>

  type Table = map<int, int>

  function PutAll(m: Table, points: seq<Point>): Table {
    if points == [] then m
    else
      var last := points[|points| - 1];
      PutAll(m, points[..|points| - 1])[last.time := last.value]
  }

  /** The last value appended for each timestamp. */
  function LastValues(points: seq<Point>): Table { PutAll(map[], points) }

  function Window(m: Table, cutoff: int): Table {
    map t | t in m && t >= cutoff :: m[t]
  }

  function PointsOf(batch: Batch, axis: Axis): seq<Point> {
    if batch == [] then []
    else
      PointsOf(batch[..|batch| - 1], axis) +
      (if batch[|batch| - 1].axis == axis then batch[|batch| - 1].points else [])
  }

  function AllPoints(batch: Batch): seq<Point> {
    if batch == [] then [] else AllPoints(batch[..|batch| - 1]) + batch[|batch| - 1].points
  }

  function Later(t: Option<int>, time: int): Option<int> {
    if t.None? || time > t.value then Some(time) else t
  }

  function Newest(t: Option<int>, points: seq<Point>): Option<int> {
    if points == [] then t else Later(Newest(t, points[..|points| - 1]), points[|points| - 1].time)
  }

  function Earlier(t: Option<int>, time: int): Option<int> {
    if t.None? || time < t.value then Some(time) else t
  }

  function Earliest(t: Option<int>, points: seq<Point>): Option<int> {
    if points == [] then t else Earlier(Earliest(t, points[..|points| - 1]), points[|points| - 1].time)
  }

  // The meaning of a chart.

  datatype Chart = Chart(tables: map<Axis, Table>, newest: Option<int>)

  const EMPTY := Chart(map a: Axis | true :: map[], None)

  /** append() in terms of tables. */
  function AppendTable(m: Table, newest: Option<int>, batch: Batch, window: int, axis: Axis): Table {
    var newest' := Newest(newest, AllPoints(batch));
    if AllPoints(batch) == [] || newest'.None? then m
    else Window(PutAll(m, PointsOf(batch, axis)), newest'.value - window)
  }

  function Append(c: Chart, batch: Batch, window: int): Chart
    requires forall a: Axis :: a in c.tables
  {
    Chart(map a: Axis | true :: AppendTable(c.tables[a], c.newest, batch, window, a),
          Newest(c.newest, AllPoints(batch)))
  }

  /** setWindowMs() in terms of tables. */
  function Resized(c: Chart, window: int): Chart
    requires forall a: Axis :: a in c.tables
  {
    if c.newest.None? then c
    else Chart(map a: Axis | true :: Window(c.tables[a], c.newest.value - window), c.newest)
  }

  function AppendAll(c: Chart, batches: seq<Batch>, window: int): (r: Chart)
    requires forall a: Axis :: a in c.tables
    ensures forall a: Axis :: a in r.tables
  {
    if batches == [] then c
    else Append(AppendAll(c, batches[..|batches| - 1], window), batches[|batches| - 1], window)
  }

  function Joined(batches: seq<Batch>): Batch {
    if batches == [] then [] else Joined(batches[..|batches| - 1]) + batches[|batches| - 1]
  }

  function OfflineNewest(batches: seq<Batch>): Option<int> { Newest(None, AllPoints(Joined(batches))) }

  function WindowOf(points: seq<Point>, newest: Option<int>, window: int): Table {
    if newest.None? then map[] else Window(LastValues(points), newest.value - window)
  }

  /** The offline meaning of everything appended. */
  function Offline(batches: seq<Batch>, window: int): Chart {
    Chart(map a: Axis | true :: WindowOf(PointsOf(Joined(batches), a), OfflineNewest(batches), window),
          OfflineNewest(batches))
  }

  lemma {:induction false} PutAllConcat(m: Table, p: seq<Point>, q: seq<Point>)
    ensures PutAll(m, p + q) == PutAll(PutAll(m, p), q)
    decreases |q|
  {
    if q == [] {
      assert p + q == p;
    } else {
      assert (p + q)[..|p + q| - 1] == p + q[..|q| - 1];
      PutAllConcat(m, p, q[..|q| - 1]);
    }
  }

  lemma {:induction false} NewestConcat(t: Option<int>, p: seq<Point>, q: seq<Point>)
    ensures Newest(t, p + q) == Newest(Newest(t, p), q)
    decreases |q|
  {
    if q == [] {
      assert p + q == p;
    } else {
      assert (p + q)[..|p + q| - 1] == p + q[..|q| - 1];
      NewestConcat(t, p, q[..|q| - 1]);
    }
  }

  lemma BatchInit(a: Batch, b: Batch)
    requires b != []
    ensures (a + b)[..|a + b| - 1] == a + b[..|b| - 1] && (a + b)[|a + b| - 1] == b[|b| - 1]
  {
  }

  lemma {:induction false} PointsConcat(a: Batch, b: Batch, axis: Axis)
    ensures PointsOf(a + b, axis) == PointsOf(a, axis) + PointsOf(b, axis)
    decreases |b|
  {
    if b == [] {
      assert a + b == a;
    } else {
      BatchInit(a, b);
      PointsConcat(a, b[..|b| - 1], axis);
    }
  }

  lemma {:induction false} AllPointsConcat(a: Batch, b: Batch)
    ensures AllPoints(a + b) == AllPoints(a) + AllPoints(b)
    decreases |b|
  {
    if b == [] {
      assert a + b == a;
    } else {
      BatchInit(a, b);
      AllPointsConcat(a, b[..|b| - 1]);
      Sequences.Associate(AllPoints(a), AllPoints(b[..|b| - 1]), b[|b| - 1].points);
    }
  }

  lemma {:induction false} NewestGrows(t: Option<int>, points: seq<Point>)
    ensures t.Some? ==> Newest(t, points).Some? && Newest(t, points).value >= t.value
    ensures points != [] ==> Newest(t, points).Some?
    ensures forall p <- points :: Newest(t, points).Some? && p.time <= Newest(t, points).value
    ensures Newest(t, points) != t ==> exists p <- points :: Newest(t, points) == Some(p.time)
    decreases |points|
  {
    if points != [] {
      var init, last := points[..|points| - 1], points[|points| - 1];
      NewestGrows(t, init);
      assert points == init + [last];
      if Newest(t, points) != Newest(t, init) {
        assert last in points;
      }
    }
  }

  /** Dropping what is too old before or after putting makes no difference to the window. */
  lemma {:induction false} WindowAbsorbs(m: Table, points: seq<Point>, early: int, late: int)
    requires early <= late
    ensures Window(PutAll(Window(m, early), points), late) == Window(PutAll(m, points), late)
    decreases |points|
  {
    if points != [] {
      WindowAbsorbs(m, points[..|points| - 1], early, late);
      PutWindow(PutAll(Window(m, early), points[..|points| - 1]), PutAll(m, points[..|points| - 1]),
                points[|points| - 1], late);
    }
  }

  lemma PutWindow(m: Table, n: Table, p: Point, cutoff: int)
    requires Window(m, cutoff) == Window(n, cutoff)
    ensures Window(m[p.time := p.value], cutoff) == Window(n[p.time := p.value], cutoff)
    ensures p.time < cutoff ==> Window(m[p.time := p.value], cutoff) == Window(m, cutoff)
  {
    forall t
      ensures t in Window(m, cutoff) <==> t in m && t >= cutoff
      ensures t in Window(n, cutoff) <==> t in n && t >= cutoff
    {
    }
  }

  function Fresh(cutoff: int): Point -> bool { (p: Point) => p.time >= cutoff }

  lemma {:induction false} FreshSuffices(m: Table, points: seq<Point>, cutoff: int)
    ensures Window(PutAll(m, Sequences.Filter(points, Fresh(cutoff))), cutoff) ==
            Window(PutAll(m, points), cutoff)
    decreases |points|
  {
    if points != [] {
      var init, last := points[..|points| - 1], points[|points| - 1];
      FreshSuffices(m, init, cutoff);
      assert points == init + [last];
      Sequences.FilterSnoc(init, last, Fresh(cutoff));
      PutWindow(PutAll(m, Sequences.Filter(init, Fresh(cutoff))), PutAll(m, init), last, cutoff);
      PutAllConcat(m, Sequences.Filter(init, Fresh(cutoff)), [last]);
      assert [last][..0] == [];
      assert Sequences.Filter(init, Fresh(cutoff)) + [] == Sequences.Filter(init, Fresh(cutoff));
    }
  }

  lemma {:induction false} NoPoints(batch: Batch, axis: Axis)
    requires AllPoints(batch) == []
    ensures PointsOf(batch, axis) == []
    decreases |batch|
  {
    if batch != [] {
      NoPoints(batch[..|batch| - 1], axis);
    }
  }

  lemma TableLater(p: seq<Point>, q: seq<Point>, early: int, late: int)
    requires early <= late
    ensures Window(PutAll(Window(LastValues(p), early), q), late) == Window(LastValues(p + q), late)
  {
    PutAllConcat(map[], p, q);
    WindowAbsorbs(LastValues(p), q, early, late);
  }

  lemma TableFirst(p: seq<Point>, q: seq<Point>, before: Option<int>, window: int)
    requires p == [] && before.None?
    ensures PutAll(WindowOf(p, before, window), q) == LastValues(p + q)
  {
    assert p + q == q;
  }

  /** The table of one axis after one more batch, in terms of what was appended to it. */
  lemma TableStep(p: seq<Point>, q: seq<Point>, before: Option<int>, cutoff: int, window: int)
    requires before.None? ==> p == []
    requires before.Some? ==> before.value - window <= cutoff
    ensures Window(PutAll(WindowOf(p, before, window), q), cutoff) == Window(LastValues(p + q), cutoff)
  {
    if before.Some? {
      TableLater(p, q, before.value - window, cutoff);
    } else {
      TableFirst(p, q, before, window);
    }
  }

  lemma NewestStep(before: seq<Batch>, batch: Batch)
    ensures OfflineNewest(before + [batch]) == Newest(OfflineNewest(before), AllPoints(batch))
    ensures Joined(before + [batch]) == Joined(before) + batch
  {
    assert (before + [batch])[..|before|] == before;
    AllPointsConcat(Joined(before), batch);
    NewestConcat(None, AllPoints(Joined(before)), AllPoints(batch));
  }

  lemma OneMoreBatch(before: seq<Batch>, batch: Batch, window: int, axis: Axis)
    ensures AppendTable(WindowOf(PointsOf(Joined(before), axis), OfflineNewest(before), window),
                        OfflineNewest(before), batch, window, axis) ==
            WindowOf(PointsOf(Joined(before + [batch]), axis), OfflineNewest(before + [batch]), window)
  {
    var all, newest := Joined(before), OfflineNewest(before);
    NewestStep(before, batch);
    PointsConcat(all, batch, axis);
    NewestGrows(None, AllPoints(all));
    NewestGrows(newest, AllPoints(batch));
    var p, q := PointsOf(all, axis), PointsOf(batch, axis);
    if newest.None? {
      NoPoints(all, axis);
    }
    if AllPoints(batch) == [] {
      NoPoints(batch, axis);
      assert p + q == p;
    } else {
      TableStep(p, q, newest, Newest(newest, AllPoints(batch)).value - window, window);
    }
  }

  lemma AppendOffline(before: seq<Batch>, batch: Batch, window: int)
    ensures Append(Offline(before, window), batch, window) == Offline(before + [batch], window)
  {
    NewestStep(before, batch);
    forall a: Axis
      ensures AppendTable(Offline(before, window).tables[a], OfflineNewest(before), batch, window, a) ==
              Offline(before + [batch], window).tables[a]
    {
      OneMoreBatch(before, batch, window, a);
    }
  }

  /** Online equals offline: for a fixed window, after any batches, each axis holds exactly
      the last value per timestamp, for the timestamps inside the final window. */
  lemma {:induction false} OnlineIsOffline(batches: seq<Batch>, window: int)
    ensures AppendAll(EMPTY, batches, window) == Offline(batches, window)
    decreases |batches|
  {
    if batches != [] {
      var before, batch := batches[..|batches| - 1], batches[|batches| - 1];
      OnlineIsOffline(before, window);
      AppendOffline(before, batch, window);
      assert batches == before + [batch];
    }
  }

  // The order of the batches does not matter when they do not disagree.

  predicate ConflictFree(points: seq<Point>) {
    forall p <- points, q <- points :: p.time == q.time ==> p == q
  }

  lemma {:induction false} LastValuesLatest(points: seq<Point>, t: int)
    ensures t in LastValues(points) <==> exists p <- points :: p.time == t
    ensures t in LastValues(points) ==> Point(t, LastValues(points)[t]) in points
    decreases |points|
  {
    if points != [] {
      var init, last := points[..|points| - 1], points[|points| - 1];
      assert points == init + [last];
      LastValuesLatest(init, t);
      if last.time == t {
        assert last in points;
      }
    }
  }

  lemma SameTable(p: seq<Point>, q: seq<Point>)
    requires ConflictFree(p) && Sequences.SameMembers(p, q)
    ensures LastValues(p) == LastValues(q)
  {
    forall t
      ensures t in LastValues(p) <==> t in LastValues(q)
      ensures t in LastValues(p) && t in LastValues(q) ==> LastValues(p)[t] == LastValues(q)[t]
    {
      LastValuesLatest(p, t);
      LastValuesLatest(q, t);
    }
  }

  lemma SameNewest(p: seq<Point>, q: seq<Point>)
    requires Sequences.SameMembers(p, q)
    ensures Newest(None, p) == Newest(None, q)
  {
    NewestGrows(None, p);
    NewestGrows(None, q);
    if p != [] {
      assert p[0] in p;
    }
  }

  lemma {:induction false} PointsMembers(batch: Batch, axis: Axis, p: Point)
    ensures p in PointsOf(batch, axis) <==> exists b <- batch :: b.axis == axis && p in b.points
    ensures p in AllPoints(batch) <==> exists b <- batch :: p in b.points
    decreases |batch|
  {
    if batch != [] {
      var init, last := batch[..|batch| - 1], batch[|batch| - 1];
      assert batch == init + [last];
      PointsMembers(init, axis, p);
      assert last in batch;
    }
  }

  lemma {:induction false} JoinedMembers(batches: seq<Batch>, b: AxisBatch)
    ensures b in Joined(batches) <==> exists batch <- batches :: b in batch
    decreases |batches|
  {
    if batches != [] {
      var init, last := batches[..|batches| - 1], batches[|batches| - 1];
      assert batches == init + [last];
      JoinedMembers(init, b);
      assert last in batches;
    }
  }

  lemma JoinedSame(a: seq<Batch>, b: seq<Batch>)
    requires Sequences.SameMembers(a, b)
    ensures Sequences.SameMembers(Joined(a), Joined(b))
  {
    forall x
      ensures x in Joined(a) <==> x in Joined(b)
    {
      JoinedMembers(a, x);
      JoinedMembers(b, x);
    }
  }

  lemma PointsSame(a: Batch, b: Batch, axis: Axis)
    requires Sequences.SameMembers(a, b)
    ensures Sequences.SameMembers(PointsOf(a, axis), PointsOf(b, axis)) &&
            Sequences.SameMembers(AllPoints(a), AllPoints(b))
  {
    forall x
      ensures x in PointsOf(a, axis) <==> x in PointsOf(b, axis)
      ensures x in AllPoints(a) <==> x in AllPoints(b)
    {
      PointsMembers(a, axis, x);
      PointsMembers(b, axis, x);
    }
  }

  lemma SameWindow(a: seq<Batch>, b: seq<Batch>, window: int, axis: Axis)
    requires Sequences.SameMembers(a, b) && ConflictFree(PointsOf(Joined(a), axis))
    ensures OfflineNewest(a) == OfflineNewest(b)
    ensures WindowOf(PointsOf(Joined(a), axis), OfflineNewest(a), window) ==
            WindowOf(PointsOf(Joined(b), axis), OfflineNewest(b), window)
  {
    JoinedSame(a, b);
    PointsSame(Joined(a), Joined(b), axis);
    SameNewest(AllPoints(Joined(a)), AllPoints(Joined(b)));
    SameTable(PointsOf(Joined(a), axis), PointsOf(Joined(b), axis));
  }

  /** Two histories made of the same batches, in any order and with any repeats, end in the
      same chart, as long as no axis gets two values for one timestamp. */
  lemma OrderDoesNotMatter(a: seq<Batch>, b: seq<Batch>, window: int)
    requires Sequences.SameMembers(a, b)
    requires forall axis: Axis :: ConflictFree(PointsOf(Joined(a), axis))
    ensures AppendAll(EMPTY, a, window) == AppendAll(EMPTY, b, window)
  {
    OnlineIsOffline(a, window);
    OnlineIsOffline(b, window);
    forall axis: Axis
      ensures Offline(a, window).tables[axis] == Offline(b, window).tables[axis]
      ensures OfflineNewest(a) == OfflineNewest(b)
    {
      SameWindow(a, b, window, axis);
    }
    assert OfflineNewest(a) == OfflineNewest(b) by { SameWindow(a, b, window, Fx); }
    assert Offline(a, window).tables == Offline(b, window).tables;
  }

  // A series sorted by time is one way only of writing a table.

  predicate Sorted(series: seq<Point>) {
    forall i, j :: 0 <= i < j < |series| ==> series[i].time < series[j].time
  }

  lemma EmptyTable(a: seq<Point>)
    ensures LastValues(a) == map[] <==> a == []
  {
    if a != [] {
      LastValuesLatest(a, a[0].time);
      assert a[0] in a;
      assert a[0].time in LastValues(a);
    }
  }

  /** A strictly sorted series is determined by its table. */
  lemma {:induction false} SeriesIsTable(a: seq<Point>, b: seq<Point>)
    requires Sorted(a) && Sorted(b) && LastValues(a) == LastValues(b)
    ensures a == b
    decreases |a|
  {
    EmptyTable(a);
    EmptyTable(b);
    if a != [] && b != [] {
      var x, y := a[|a| - 1], b[|b| - 1];
      SameLast(a, b);
      var c, d := a[..|a| - 1], b[..|b| - 1];
      InitTable(a);
      InitTable(b);
      SeriesIsTable(c, d);
      assert a == c + [x] && b == d + [y];
    }
  }

  lemma SameLast(a: seq<Point>, b: seq<Point>)
    requires Sorted(a) && Sorted(b) && LastValues(a) == LastValues(b) && a != [] && b != []
    ensures a[|a| - 1] == b[|b| - 1]
  {
    var x, y := a[|a| - 1], b[|b| - 1];
    LastValuesLatest(a, y.time);
    LastValuesLatest(b, x.time);
    assert x in a && y in b;
    assert x.time in LastValues(a) && y.time in LastValues(b);
    assert LastValues(a)[x.time] == x.value && LastValues(b)[y.time] == y.value;
  }

  lemma InitTable(a: seq<Point>)
    requires Sorted(a) && a != []
    ensures LastValues(a[..|a| - 1]) == LastValues(a) - {a[|a| - 1].time}
  {
    LastValuesLatest(a[..|a| - 1], a[|a| - 1].time);
  }
}
