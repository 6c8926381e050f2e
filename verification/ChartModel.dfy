/** ChartModel: per-axis point series kept sorted in place, with eviction of what has left
    the time window, proved against the tables of ChartSeries. */
module ChartModel {
  import opened Wrappers
  import opened ChartSeries

  const AXES: seq<Axis> := [Fx, Fy, Fz, Tx, Ty, Tz]

  const NOTHING: map<Axis, seq<Point>> := map[Fx := [], Fy := [], Fz := [], Tx := [], Ty := [], Tz := []]

  lemma EveryAxis()
    ensures forall a: Axis :: a in AXES && a in NOTHING && NOTHING[a] == []
  {
    forall a: Axis
      ensures a in AXES && a in NOTHING && NOTHING[a] == []
    {
      match a
      case Fx => assert AXES[0] == a;
      case Fy => assert AXES[1] == a;
      case Fz => assert AXES[2] == a;
      case Tx => assert AXES[3] == a;
      case Ty => assert AXES[4] == a;
      case Tz => assert AXES[5] == a;
    }
  }

  lemma AxesDiffer(i: nat)
    requires i < |AXES|
    ensures AXES[i] in AXES[i..] && AXES[i] !in AXES[i + 1..] && AXES[i] !in AXES[..i]
    ensures AXES[..i + 1] == AXES[..i] + [AXES[i]]
  {
  }

  predicate LowerBoundAt(series: seq<Point>, time: int, k: nat) {
    k <= |series| &&
    (forall i :: 0 <= i < k ==> series[i].time < time) &&
    (forall i :: k <= i < |series| ==> series[i].time >= time)
  }

  method LowerBound(series: seq<Point>, time: int) returns (low: nat)
    requires Sorted(series)
    ensures LowerBoundAt(series, time, low)
  {
    low := 0;
    var high := |series|;
    while low < high
      invariant 0 <= low <= high <= |series|
      invariant forall i :: 0 <= i < low ==> series[i].time < time
      invariant forall i :: high <= i < |series| ==> series[i].time >= time
    {
      var middle := low + (high - low) / 2;
      if series[middle].time < time {
        low := middle + 1;
      } else {
        high := middle;
      }
    }
  }

  function Inserted(series: seq<Point>, k: nat, p: Point): seq<Point>
    requires k <= |series|
  {
    series[..k] + [p] + series[k..]
  }

  /** A table that lists exactly the given points. */
  ghost predicate Lists(m: Table, points: seq<Point>) {
    forall p: Point :: p in points <==> p.time in m && m[p.time] == p.value
  }

  lemma SortedTable(series: seq<Point>)
    requires Sorted(series)
    ensures Lists(LastValues(series), series)
  {
    forall p: Point
      ensures p in series <==> p.time in LastValues(series) && LastValues(series)[p.time] == p.value
    {
      LastValuesLatest(series, p.time);
    }
  }

  lemma TableIs(series: seq<Point>, m: Table)
    requires Sorted(series) && Lists(m, series)
    ensures LastValues(series) == m
  {
    SortedTable(series);
    var n := LastValues(series);
    forall t
      ensures t in m <==> t in n
      ensures t in m && t in n ==> m[t] == n[t]
    {
      assert t in m ==> Point(t, m[t]) in series;
      assert t in n ==> Point(t, n[t]) in series;
    }
  }

  lemma InsertKeepsSorted(series: seq<Point>, k: nat, p: Point)
    requires Sorted(series) && LowerBoundAt(series, p.time, k)
    requires k < |series| ==> series[k].time != p.time
    ensures Sorted(Inserted(series, k, p))
    ensures forall q: Point :: q in Inserted(series, k, p) <==> q == p || q in series
    ensures forall q <- series :: q.time != p.time
  {
    assert series == series[..k] + series[k..];
  }

  lemma InsertPoint(series: seq<Point>, k: nat, p: Point)
    requires Sorted(series) && LowerBoundAt(series, p.time, k)
    requires k < |series| ==> series[k].time != p.time
    ensures Sorted(Inserted(series, k, p))
    ensures LastValues(Inserted(series, k, p)) == LastValues(series)[p.time := p.value]
    ensures forall q: Point :: q in Inserted(series, k, p) <==> q == p || q in series
  {
    SortedTable(series);
    InsertKeepsSorted(series, k, p);
    TableIs(Inserted(series, k, p), LastValues(series)[p.time := p.value]);
  }

  lemma ReplacePoint(series: seq<Point>, k: nat, p: Point)
    requires Sorted(series) && k < |series| && series[k].time == p.time
    ensures Sorted(series[k := p])
    ensures LastValues(series[k := p]) == LastValues(series)[p.time := p.value]
  {
    var r, m := series[k := p], LastValues(series)[p.time := p.value];
    SortedTable(series);
    assert forall i :: 0 <= i < |r| ==> r[i].time == series[i].time;
    forall q: Point
      ensures q in r <==> q.time in m && m[q.time] == q.value
    {
      if q in series && q.time != p.time {
        var i :| 0 <= i < |series| && series[i] == q;
        assert r[i] == q;
      }
      assert r[k] == p;
    }
    TableIs(r, m);
  }

  lemma DropFront(series: seq<Point>, k: nat, cutoff: int)
    requires Sorted(series) && LowerBoundAt(series, cutoff, k)
    ensures Sorted(series[k..])
    ensures LastValues(series[k..]) == Window(LastValues(series), cutoff)
    ensures forall p <- series[k..] :: p in series && p.time >= cutoff
  {
    var r, m := series[k..], Window(LastValues(series), cutoff);
    SortedTable(series);
    assert series == series[..k] + r;
    assert forall q <- series[..k] :: q.time < cutoff;
    TableIs(r, m);
  }

  lemma PointsInit(batch: Batch, i: nat, axis: Axis)
    requires i < |batch|
    ensures PointsOf(batch[..i + 1], axis) ==
            PointsOf(batch[..i], axis) + (if batch[i].axis == axis then batch[i].points else [])
    ensures AllPoints(batch[..i + 1]) == AllPoints(batch[..i]) + batch[i].points
  {
    assert batch[..i + 1][..i] == batch[..i];
  }

  lemma PutLast(m: Table, points: seq<Point>, p: Point)
    ensures PutAll(m, points + [p]) == PutAll(m, points)[p.time := p.value]
  {
    assert (points + [p])[..|points|] == points;
  }

  lemma NewestLast(t: Option<int>, points: seq<Point>, p: Point)
    ensures Newest(t, points + [p]) == Later(Newest(t, points), p.time)
    ensures Earliest(t, points + [p]) == Earlier(Earliest(t, points), p.time)
  {
    assert (points + [p])[..|points|] == points;
  }

  /** Where the series of an axis stands during the merge. */
  predicate SoFar(series: seq<Point>, was: seq<Point>, merged: seq<Point>, cutoff: int, latest: int) {
    Sorted(series) &&
    Window(LastValues(series), cutoff) == Window(PutAll(LastValues(was), merged), cutoff) &&
    forall p <- series :: p.time <= latest
  }

  lemma SoFarStep(series: seq<Point>, was: seq<Point>, merged: seq<Point>, cutoff: int, latest: int,
                  p: Point, next: seq<Point>)
    requires SoFar(series, was, merged, cutoff, latest) && p.time <= latest
    requires Sorted(next) && forall q <- next :: q == p || q in series
    requires if p.time < cutoff then next == series else LastValues(next) == LastValues(series)[p.time := p.value]
    ensures SoFar(next, was, merged + [p], cutoff, latest)
  {
    PutLast(LastValues(was), merged, p);
    PutWindow(LastValues(series), PutAll(LastValues(was), merged), p, cutoff);
  }

  /** What eviction leaves of a series. */
  predicate Evicted(series: seq<Point>, was: seq<Point>, cutoff: int) {
    Sorted(series) &&
    LastValues(series) == Window(LastValues(was), cutoff) &&
    forall p <- series :: p in was && p.time >= cutoff
  }

  /** Where a newer newest timestamp comes from. */
  lemma NewestComesFrom(newest: Option<int>, batch: Batch) returns (axis: Axis, p: Point)
    requires Newest(newest, AllPoints(batch)) != newest
    ensures p in PointsOf(batch, axis) && Newest(newest, AllPoints(batch)) == Some(p.time)
    ensures newest.Some? ==> newest.value < p.time
  {
    var late := Newest(newest, AllPoints(batch));
    NewestGrows(newest, AllPoints(batch));
    p :| p in AllPoints(batch) && late == Some(p.time);
    PointsMembers(batch, Fx, p);
    var b :| b in batch && p in b.points;
    axis := b.axis;
    PointsMembers(batch, axis, p);
  }

  predicate UpTo(points: seq<Point>, newest: Option<int>) {
    forall p <- points :: newest.Some? && p.time <= newest.value
  }

  /** A merge that changes no series brought no newer timestamp. */
  lemma UnchangedMeansOld(points: map<Axis, seq<Point>>, newest: Option<int>, batch: Batch, cutoff: int, late: int)
    requires forall a: Axis :: a in points && UpTo(points[a], newest)
    requires Newest(newest, AllPoints(batch)) == Some(late) && cutoff <= late
    requires forall a: Axis :: SoFar(points[a], points[a], PointsOf(batch, a), cutoff, late)
    ensures newest == Some(late)
  {
    if newest != Some(late) {
      var axis, p := NewestComesFrom(newest, batch);
      MergedIsThere(points[axis], PointsOf(batch, axis), cutoff, late, p);
    }
  }

  lemma MergedIsThere(series: seq<Point>, merged: seq<Point>, cutoff: int, latest: int, p: Point)
    requires SoFar(series, series, merged, cutoff, latest) && p in merged && p.time >= cutoff
    ensures exists q <- series :: q.time == p.time
  {
    PutContains(LastValues(series), merged, p);
    assert p.time in Window(PutAll(LastValues(series), merged), cutoff);
    LastValuesLatest(series, p.time);
  }

  lemma {:induction false} PutContains(m: Table, points: seq<Point>, p: Point)
    requires p in points
    ensures p.time in PutAll(m, points)
    decreases |points|
  {
    var init, last := points[..|points| - 1], points[|points| - 1];
    assert points == init + [last];
    if p != last {
      PutContains(m, init, p);
    }
  }

  lemma SurveyFinds(newest: Option<int>, batch: Batch)
    ensures var first := Earliest(None, AllPoints(batch));
            first.None? <==> AllPoints(batch) == []
    ensures AllPoints(batch) != [] ==> Newest(newest, AllPoints(batch)).Some?
    ensures newest.Some? ==>
              Newest(newest, AllPoints(batch)).Some? && newest.value <= Newest(newest, AllPoints(batch)).value
    ensures AllPoints(batch) == [] ==> Newest(newest, AllPoints(batch)) == newest
    ensures forall p <- AllPoints(batch) :: p.time <= Newest(newest, AllPoints(batch)).value
  {
    NewestGrows(newest, AllPoints(batch));
  }

  predicate WellFormed(points: map<Axis, seq<Point>>) {
    forall a: Axis :: a in points && Sorted(points[a])
  }

  ghost function ViewOf(points: map<Axis, seq<Point>>, newest: Option<int>): Chart
    requires WellFormed(points)
  {
    Chart(map a: Axis | true :: LastValues(points[a]), newest)
  }

  predicate Bounded(points: seq<Point>, early: int, late: int) {
    forall p <- points :: early <= p.time <= late
  }

  predicate InWindow(points: map<Axis, seq<Point>>, newest: Option<int>, window: int)
    requires WellFormed(points)
  {
    match newest
    case None => forall a: Axis :: points[a] == []
    case Some(late) => forall a: Axis :: Bounded(points[a], late - window, late)
  }

  lemma InWindowUpTo(points: map<Axis, seq<Point>>, newest: Option<int>, window: int, batch: Batch)
    requires WellFormed(points) && InWindow(points, newest, window) && AllPoints(batch) != []
    ensures forall a: Axis :: UpTo(points[a], newest)
    ensures forall a: Axis :: UpTo(points[a], Newest(newest, AllPoints(batch)))
  {
    SurveyFinds(newest, batch);
    forall a: Axis
      ensures UpTo(points[a], newest) && UpTo(points[a], Newest(newest, AllPoints(batch)))
    {
      assert newest.Some? ==> Bounded(points[a], newest.value - window, newest.value);
    }
  }

  /** A merge followed by eviction appends to the table of an axis. */
  lemma AppendSeries(now: seq<Point>, merged: seq<Point>, was: seq<Point>, newest: Option<int>, batch: Batch,
                     window: int, late: int, cutoff: int, axis: Axis)
    requires AllPoints(batch) != [] && Newest(newest, AllPoints(batch)) == Some(late) && cutoff == late - window
    requires SoFar(merged, was, PointsOf(batch, axis), cutoff, late)
    requires Evicted(now, merged, cutoff)
    ensures LastValues(now) == AppendTable(LastValues(was), newest, batch, window, axis)
    ensures Bounded(now, late - window, late)
  {
  }

  lemma AppendChart(now: map<Axis, seq<Point>>, merged: map<Axis, seq<Point>>, was: map<Axis, seq<Point>>,
                    newest: Option<int>, batch: Batch, window: int, late: int, cutoff: int)
    requires WellFormed(now) && WellFormed(merged) && WellFormed(was)
    requires AllPoints(batch) != [] && Newest(newest, AllPoints(batch)) == Some(late) && cutoff == late - window
    requires forall a: Axis :: SoFar(merged[a], was[a], PointsOf(batch, a), cutoff, late)
    requires forall a: Axis :: Evicted(now[a], merged[a], cutoff)
    ensures ViewOf(now, Some(late)) == ChartSeries.Append(ViewOf(was, newest), batch, window)
    ensures InWindow(now, Some(late), window)
  {
    var c, d := ViewOf(now, Some(late)), ChartSeries.Append(ViewOf(was, newest), batch, window);
    forall a: Axis
      ensures c.tables[a] == d.tables[a] && Bounded(now[a], late - window, late)
    {
      AppendSeries(now[a], merged[a], was[a], newest, batch, window, late, cutoff, a);
    }
    SameTables(c.tables, d.tables);
  }

  /** Eviction narrows every table. */
  lemma EvictChart(now: map<Axis, seq<Point>>, was: map<Axis, seq<Point>>, latest: int, window: int)
    requires WellFormed(now) && WellFormed(was)
    requires forall a: Axis :: Evicted(now[a], was[a], latest - window)
    ensures ViewOf(now, Some(latest)) == Resized(ViewOf(was, Some(latest)), window)
  {
    var c, d := ViewOf(now, Some(latest)), Resized(ViewOf(was, Some(latest)), window);
    forall a: Axis
      ensures c.tables[a] == d.tables[a]
    {
    }
    SameTables(c.tables, d.tables);
  }

  lemma InWindowStays(points: map<Axis, seq<Point>>, latest: int, window: int)
    requires WellFormed(points) && InWindow(points, Some(latest), window)
    ensures forall a: Axis :: Evicted(points[a], points[a], latest - window)
    ensures ViewOf(points, Some(latest)) == Resized(ViewOf(points, Some(latest)), window)
  {
    forall a: Axis
      ensures Evicted(points[a], points[a], latest - window)
    {
      DropFront(points[a], 0, latest - window);
      assert points[a][0..] == points[a];
    }
    EvictChart(points, points, latest, window);
  }

  lemma SameTables(a: map<Axis, Table>, b: map<Axis, Table>)
    requires forall axis: Axis :: axis in a && axis in b && a[axis] == b[axis]
    ensures a == b
  {
  }

  lemma AppendNothing(was: map<Axis, seq<Point>>, newest: Option<int>, batch: Batch, window: int)
    requires WellFormed(was) && AllPoints(batch) == []
    ensures ViewOf(was, newest) == ChartSeries.Append(ViewOf(was, newest), batch, window)
  {
  }

  /** After the points of one axis batch, every axis has merged one axis batch more. */
  lemma MergedAxis(now: map<Axis, seq<Point>>, before: map<Axis, seq<Point>>, was: map<Axis, seq<Point>>,
                   batch: Batch, i: nat, cutoff: int, latest: int)
    requires WellFormed(now) && WellFormed(before) && i < |batch| && forall a: Axis :: a in was
    requires now == before[batch[i].axis := now[batch[i].axis]]
    requires var axis := batch[i].axis;
             SoFar(now[axis], was[axis], PointsOf(batch[..i], axis) + batch[i].points, cutoff, latest)
    requires forall a: Axis :: SoFar(before[a], was[a], PointsOf(batch[..i], a), cutoff, latest)
    ensures forall a: Axis :: SoFar(now[a], was[a], PointsOf(batch[..i + 1], a), cutoff, latest)
  {
    forall a: Axis
      ensures SoFar(now[a], was[a], PointsOf(batch[..i + 1], a), cutoff, latest)
    {
      PointsInit(batch, i, a);
      assert PointsOf(batch[..i], a) + [] == PointsOf(batch[..i], a);
    }
  }

  class Model {
    var points: map<Axis, seq<Point>>
    var originNs: Option<int>
    var latestNs: Option<int>
    var windowNs: int
    var revision: nat

    ghost predicate Valid()
      reads this
    {
      windowNs > 0 && (latestNs.None? <==> originNs.None?) &&
      WellFormed(points) && InWindow(points, latestNs, windowNs)
    }

    ghost function View(): Chart
      reads this
      requires Valid()
    {
      ViewOf(points, latestNs)
    }

    constructor (window: int)
      requires window > 0
      ensures Valid() && View() == EMPTY && windowNs == window && revision == 0
    {
      EveryAxis();
      points := NOTHING;
      originNs, latestNs, windowNs, revision := None, None, window, 0;
    }

    method Survey(batch: Batch) returns (first: Option<int>, newest: Option<int>)
      ensures first == Earliest(None, AllPoints(batch))
      ensures newest == Newest(latestNs, AllPoints(batch))
    {
      first, newest := None, latestNs;
      for i := 0 to |batch|
        invariant first == Earliest(None, AllPoints(batch[..i]))
        invariant newest == Newest(latestNs, AllPoints(batch[..i]))
      {
        first, newest := SurveyPoints(batch[i].points, first, newest, AllPoints(batch[..i]));
        PointsInit(batch, i, Fx);
      }
      assert batch[..|batch|] == batch;
    }

    /** The same for the points of one axis batch, after those in seen. */
    method SurveyPoints(here: seq<Point>, first0: Option<int>, newest0: Option<int>, ghost seen: seq<Point>)
      returns (first: Option<int>, newest: Option<int>)
      requires first0 == Earliest(None, seen) && newest0 == Newest(latestNs, seen)
      ensures first == Earliest(None, seen + here) && newest == Newest(latestNs, seen + here)
    {
      first, newest := first0, newest0;
      assert seen + here[..0] == seen;
      for j := 0 to |here|
        invariant first == Earliest(None, seen + here[..j])
        invariant newest == Newest(latestNs, seen + here[..j])
      {
        assert seen + here[..j + 1] == (seen + here[..j]) + [here[j]];
        NewestLast(latestNs, seen + here[..j], here[j]);
        NewestLast(None, seen + here[..j], here[j]);
        var time := here[j].time;
        first := if first.None? || time < first.value then Some(time) else first;
        newest := if newest.None? || time > newest.value then Some(time) else newest;
      }
      assert here[..|here|] == here;
    }

    /** One point of the merge: replaced in place, inserted at its place, or too old. */
    method MergePoint(axis: Axis, p: Point, cutoff: int) returns (changed: bool)
      requires WellFormed(points)
      modifies this`points
      ensures WellFormed(points)
      ensures points == old(points)[axis := points[axis]]
      ensures if p.time < cutoff then points == old(points)
              else LastValues(points[axis]) == LastValues(old(points)[axis])[p.time := p.value]
      ensures forall q <- points[axis] :: q == p || q in old(points)[axis]
      ensures !changed ==> points == old(points)
    {
      changed := false;
      if p.time < cutoff {
        return;
      }
      var series := points[axis];
      var index := LowerBound(series, p.time);
      if index < |series| && series[index].time == p.time {
        ReplacePoint(series, index, p);
        if series[index].value != p.value {
          points := points[axis := series[index := p]];
          changed := true;
        } else {
          assert series[index := p] == series;
        }
      } else {
        InsertPoint(series, index, p);
        points := points[axis := series[..index] + [p] + series[index..]];
        changed := true;
      }
    }

    /** The merge of the points of one axis batch, for its own series. */
    method MergePoints(axis: Axis, here: seq<Point>, cutoff: int,
                       ghost was: seq<Point>, ghost before: seq<Point>, ghost latest: int)
      returns (changed: bool)
      requires WellFormed(points) && forall p <- here :: p.time <= latest
      requires SoFar(points[axis], was, before, cutoff, latest)
      modifies this`points
      ensures WellFormed(points) && points == old(points)[axis := points[axis]]
      ensures SoFar(points[axis], was, before + here, cutoff, latest)
      ensures !changed ==> points == old(points)
    {
      changed := false;
      assert before + here[..0] == before;
      for j := 0 to |here|
        invariant WellFormed(points) && points == old(points)[axis := points[axis]]
        invariant SoFar(points[axis], was, before + here[..j], cutoff, latest)
        invariant !changed ==> points == old(points)
      {
        ghost var series, merged := points[axis], before + here[..j];
        assert before + here[..j + 1] == merged + [here[j]];
        var c := MergePoint(axis, here[j], cutoff);
        changed := c || changed;
        SoFarStep(series, was, merged, cutoff, latest, here[j], points[axis]);
      }
      assert here[..|here|] == here;
    }

    /** The merge of one axis batch, seen from every series. */
    method MergeAxis(batch: Batch, i: nat, cutoff: int, ghost was: map<Axis, seq<Point>>, ghost latest: int)
      returns (changed: bool)
      requires i < |batch| && forall p <- batch[i].points :: p.time <= latest
      requires WellFormed(points) && forall a: Axis :: a in was
      requires forall a: Axis :: SoFar(points[a], was[a], PointsOf(batch[..i], a), cutoff, latest)
      modifies this`points
      ensures WellFormed(points)
      ensures forall a: Axis :: SoFar(points[a], was[a], PointsOf(batch[..i + 1], a), cutoff, latest)
      ensures !changed ==> points == old(points)
    {
      ghost var axis := batch[i].axis;
      changed := MergePoints(batch[i].axis, batch[i].points, cutoff, was[axis], PointsOf(batch[..i], axis), latest);
      MergedAxis(points, old(points), was, batch, i, cutoff, latest);
    }

    method Merge(batch: Batch, cutoff: int, ghost latest: int) returns (changed: bool)
      requires WellFormed(points) && forall a: Axis :: UpTo(points[a], Some(latest))
      requires forall p <- AllPoints(batch) :: p.time <= latest
      modifies this`points
      ensures WellFormed(points)
      ensures forall a: Axis :: SoFar(points[a], old(points)[a], PointsOf(batch, a), cutoff, latest)
      ensures !changed ==> points == old(points)
    {
      changed := false;
      for i := 0 to |batch|
        invariant WellFormed(points)
        invariant forall a: Axis :: SoFar(points[a], old(points)[a], PointsOf(batch[..i], a), cutoff, latest)
        invariant !changed ==> points == old(points)
      {
        forall p <- batch[i].points
          ensures p.time <= latest
        {
          PointsMembers(batch, Fx, p);
        }
        var c := MergeAxis(batch, i, cutoff, old(points), latest);
        changed := c || changed;
      }
      assert batch[..|batch|] == batch;
    }

    method EvictAxis(axis: Axis, cutoff: int) returns (changed: bool)
      requires WellFormed(points)
      modifies this`points
      ensures WellFormed(points)
      ensures points == old(points)[axis := points[axis]]
      ensures Evicted(points[axis], old(points)[axis], cutoff)
      ensures if changed then |points[axis]| < |old(points)[axis]| else points == old(points)
    {
      var series := points[axis];
      var firstRetained := LowerBound(series, cutoff);
      DropFront(series, firstRetained, cutoff);
      changed := firstRetained > 0;
      if changed {
        points := points[axis := series[firstRetained..]];
      } else {
        assert series[0..] == series;
      }
    }

    method EvictBefore(cutoff: int) returns (changed: bool)
      requires WellFormed(points)
      modifies this`points
      ensures WellFormed(points)
      ensures forall a: Axis :: Evicted(points[a], old(points)[a], cutoff)
      ensures changed <==> points != old(points)
    {
      changed := false;
      for i := 0 to |AXES|
        invariant WellFormed(points)
        invariant forall a <- AXES[i..] :: points[a] == old(points)[a]
        invariant forall a <- AXES[..i] :: Evicted(points[a], old(points)[a], cutoff)
        invariant if changed then points != old(points) else points == old(points)
      {
        AxesDiffer(i);
        var c := EvictAxis(AXES[i], cutoff);
        changed := c || changed;
      }
      EveryAxis();
      assert AXES[..|AXES|] == AXES;
    }

    /** The merge and the eviction, for a batch whose newest timestamp is known. */
    method Advance(batch: Batch, newest: int) returns (changed: bool)
      requires WellFormed(points) && InWindow(points, latestNs, windowNs) && windowNs > 0
      requires AllPoints(batch) != [] && Newest(latestNs, AllPoints(batch)) == Some(newest)
      modifies this`points
      ensures WellFormed(points) && InWindow(points, Some(newest), windowNs)
      ensures ViewOf(points, Some(newest)) == ChartSeries.Append(ViewOf(old(points), latestNs), batch, windowNs)
      ensures !changed ==> points == old(points) && latestNs == Some(newest)
    {
      SurveyFinds(latestNs, batch);
      InWindowUpTo(points, latestNs, windowNs, batch);
      var cutoff := newest - windowNs;
      changed := Merge(batch, cutoff, newest);
      ghost var merged := points;
      if !changed {
        UnchangedMeansOld(merged, latestNs, batch, cutoff, newest);
      }
      var evicted := EvictBefore(cutoff);
      changed := evicted || changed;
      AppendChart(points, merged, old(points), latestNs, batch, windowNs, newest, cutoff);
    }

    method Append(batch: Batch) returns (changed: bool)
      requires Valid()
      modifies this
      ensures Valid() && windowNs == old(windowNs)
      ensures View() == ChartSeries.Append(old(View()), batch, windowNs)
      ensures originNs == if old(originNs).Some? then old(originNs) else Earliest(None, AllPoints(batch))
      ensures !changed ==> points == old(points) && originNs == old(originNs) && latestNs == old(latestNs)
      ensures revision == old(revision) + if changed then 1 else 0
    {
      var first, newest := Survey(batch);
      SurveyFinds(latestNs, batch);
      if first.None? || newest.None? {
        AppendNothing(points, latestNs, batch, windowNs);
        return false;
      }
      originNs := if originNs.Some? then originNs else first;
      changed := Advance(batch, newest.value);
      latestNs := newest;
      if changed {
        revision := revision + 1;
      }
    }

    method SetWindow(window: int) returns (changed: bool)
      requires Valid() && window > 0
      modifies this
      ensures Valid() && windowNs == window && originNs == old(originNs) && latestNs == old(latestNs)
      ensures View() == ChartSeries.Resized(old(View()), window)
      ensures latestNs.Some? ==>
                forall a: Axis :: Evicted(points[a], old(points)[a], latestNs.value - window)
      ensures changed <==> points != old(points)
      ensures revision == old(revision) + if window == old(windowNs) then 0 else 1
    {
      if window == windowNs {
        if latestNs.Some? {
          InWindowStays(points, latestNs.value, window);
        }
        return false;
      }
      windowNs := window;
      changed := false;
      if latestNs.Some? {
        changed := EvictBefore(latestNs.value - windowNs);
        EvictChart(points, old(points), latestNs.value, window);
      }
      revision := revision + 1;
    }

    method Reset() returns (changed: bool)
      requires Valid()
      modifies this
      ensures Valid() && View() == EMPTY && windowNs == old(windowNs) && originNs.None?
      ensures changed <==> old(latestNs).Some?
      ensures revision == old(revision) + if changed then 1 else 0
    {
      EveryAxis();
      if originNs.None? && latestNs.None? && forall a <- AXES :: points[a] == [] {
        return false;
      }
      points := NOTHING;
      originNs, latestNs := None, None;
      revision := revision + 1;
      return true;
    }
  }
}
