/** What plot aggregation means: the accepted samples are cut into consecutive intervals, and
    an interval is shown by its first, lowest, highest and last sample. */
module PlotIntervals {
  import opened Wrappers

  const AXES: nat := 6

  type AxisIndex = a: nat | a < AXES

  datatype Reading = Reading(host: int, mono: int, revision: int, force: seq<int>, torque: seq<int>)

  predicate I64(x: int) { -0x8000_0000_0000_0000 <= x < 0x8000_0000_0000_0000 }

  type TimedSample = s: Reading | |s.force| == 3 && |s.torque| == 3 && I64(s.mono)
    witness Reading(0, 0, 0, [0, 0, 0], [0, 0, 0])

  function AxisValue(s: TimedSample, axis: AxisIndex): int
  {
    if axis < |s.force| then s.force[axis] else s.torque[axis - |s.force|]
  }

  // The samples an interval is shown by.

  predicate Lowest(samples: seq<TimedSample>, axis: AxisIndex, k: nat)
  {
    k < |samples| &&
    (forall j :: 0 <= j < |samples| ==> AxisValue(samples[j], axis) >= AxisValue(samples[k], axis)) &&
    (forall j :: 0 <= j < k ==> AxisValue(samples[j], axis) > AxisValue(samples[k], axis))
  }

  predicate Highest(samples: seq<TimedSample>, axis: AxisIndex, k: nat)
  {
    k < |samples| &&
    (forall j :: 0 <= j < |samples| ==> AxisValue(samples[j], axis) <= AxisValue(samples[k], axis)) &&
    (forall j :: 0 <= j < k ==> AxisValue(samples[j], axis) < AxisValue(samples[k], axis))
  }

  predicate Key(samples: seq<TimedSample>, axis: AxisIndex, k: nat)
  {
    k < |samples| && (k == 0 || k == |samples| - 1 || Lowest(samples, axis, k) || Highest(samples, axis, k))
  }

  function IsKey(samples: seq<TimedSample>, axis: AxisIndex): nat -> bool {
    (k: nat) => Key(samples, axis, k)
  }

  /** The numbers below n with a property. */
  function Select(p: nat -> bool, n: nat): seq<nat> {
    if n == 0 then [] else if p(n - 1) then Select(p, n - 1) + [n - 1] else Select(p, n - 1)
  }

  function Keys(samples: seq<TimedSample>, axis: AxisIndex, n: nat): seq<nat> {
    Select(IsKey(samples, axis), n)
  }

  datatype PlotPoint = PlotPoint(host: int, value: int)

  function PointAt(samples: seq<TimedSample>, axis: AxisIndex, k: nat): PlotPoint
    requires k < |samples|
  {
    PlotPoint(samples[k].host, AxisValue(samples[k], axis))
  }

  function PointsAt(samples: seq<TimedSample>, axis: AxisIndex, keys: seq<nat>): seq<PlotPoint>
    requires Under(keys, |samples|)
  {
    seq(|keys|, i requires 0 <= i < |keys| => PointAt(samples, axis, keys[i]))
  }

  predicate Increasing(keys: seq<nat>) {
    forall i, j :: 0 <= i < j < |keys| ==> keys[i] < keys[j]
  }

  predicate Under(keys: seq<nat>, n: nat) {
    forall i :: 0 <= i < |keys| ==> keys[i] < n
  }

  lemma IncreasingSnoc(keys: seq<nat>, n: nat)
    requires Increasing(keys) && Under(keys, n)
    ensures Increasing(keys + [n]) && Under(keys + [n], n + 1)
    ensures forall k: nat :: k in keys + [n] <==> k in keys || k == n
  {
  }

  /** The keys are the numbers below n that have the property. */
  ghost predicate Lists(keys: seq<nat>, p: nat -> bool, n: nat) {
    Increasing(keys) && Under(keys, n) && forall k: nat :: k in keys <==> k < n && p(k)
  }

  lemma ListsMore(keys: seq<nat>, p: nat -> bool, n: nat)
    requires Lists(keys, p, n)
    ensures p(n) ==> Lists(keys + [n], p, n + 1)
    ensures !p(n) ==> Lists(keys, p, n + 1)
  {
    IncreasingSnoc(keys, n);
  }

  lemma {:induction false} SelectLists(p: nat -> bool, n: nat)
    ensures Lists(Select(p, n), p, n)
    decreases n
  {
    if n > 0 {
      SelectLists(p, n - 1);
      ListsMore(Select(p, n - 1), p, n - 1);
    }
  }

  lemma KeysAre(samples: seq<TimedSample>, axis: AxisIndex, n: nat)
    requires n <= |samples|
    ensures Increasing(Keys(samples, axis, n)) && Under(Keys(samples, axis, n), n)
    ensures forall k: nat :: k in Keys(samples, axis, n) <==> k < n && Key(samples, axis, k)
  {
    SelectLists(IsKey(samples, axis), n);
    assert forall k: nat :: IsKey(samples, axis)(k) <==> Key(samples, axis, k);
  }

  function AxisPoints(samples: seq<TimedSample>, axis: AxisIndex): seq<PlotPoint>
  {
    KeysAre(samples, axis, |samples|);
    PointsAt(samples, axis, Keys(samples, axis, |samples|))
  }

  type PlotBatch = seq<seq<PlotPoint>>

  function BatchOf(samples: seq<TimedSample>): PlotBatch {
    seq(AXES, axis requires 0 <= axis < AXES => AxisPoints(samples, axis))
  }

  // How intervals are cut.

  /** The open interval and how many samples came before it. */
  datatype Interval = Interval(samples: seq<TimedSample>, base: nat)

  datatype Pushed = Pushed(next: Interval, closed: Option<seq<TimedSample>>)

  function PushSample(v: Interval, s: TimedSample, length: int): Pushed {
    var n := |v.samples|;
    if n == 0 then Pushed(Interval([s], v.base), None)
    else if s.revision != v.samples[0].revision then Pushed(Interval([s], 0), None)
    else if s.mono < v.samples[n - 1].mono then Pushed(v, None)
    else if s.mono - v.samples[0].mono >= length then Pushed(Interval([s], v.base + n), Some(v.samples))
    else Pushed(v.(samples := v.samples + [s]), None)
  }

  datatype Input = Push(sample: TimedSample) | Reset

  /** A run: the intervals closed since the last reset, and the open one. */
  datatype Run = Run(closed: seq<seq<TimedSample>>, open: Interval)

  function Step(r: Run, input: Input, length: int): Run {
    match input
    case Reset => Run([], Interval([], 0))
    case Push(s) =>
      var p := PushSample(r.open, s, length);
      if p.closed.Some? then Run(r.closed + [p.closed.value], p.next)
      else if |r.open.samples| > 0 && s.revision != r.open.samples[0].revision then Run([], p.next)
      else Run(r.closed, p.next)
  }

  function RunAll(inputs: seq<Input>, length: int): Run {
    if inputs == [] then Run([], Interval([], 0))
    else Step(RunAll(inputs[..|inputs| - 1], length), inputs[|inputs| - 1], length)
  }

  /** The samples accepted since the last reset or change of configuration, without intervals. */
  function Accepted(inputs: seq<Input>): seq<TimedSample> {
    if inputs == [] then [] else Accept(Accepted(inputs[..|inputs| - 1]), inputs[|inputs| - 1])
  }

  function Flatten(runs: seq<seq<TimedSample>>): seq<TimedSample> {
    if runs == [] then [] else Flatten(runs[..|runs| - 1]) + runs[|runs| - 1]
  }

  predicate Ordered(samples: seq<TimedSample>) {
    forall i, j :: 0 <= i < j < |samples| ==> samples[i].mono <= samples[j].mono
  }

  /** An interval shorter than the length: every sample is less than the length after the first. */
  predicate Short(samples: seq<TimedSample>, length: int) {
    samples != [] && forall s <- samples :: s.mono - samples[0].mono < length
  }

  predicate SameRevision(samples: seq<TimedSample>) {
    forall s <- samples :: s.revision == samples[0].revision
  }

  function StartOf(samples: seq<TimedSample>): int {
    if samples == [] then 0 else samples[0].mono
  }

  /** Where the interval after the i-th closed one starts. */
  function StartAfter(r: Run, i: nat): int
    requires i < |r.closed|
  {
    if i + 1 < |r.closed| then StartOf(r.closed[i + 1]) else StartOf(r.open.samples)
  }

  predicate Cut(r: Run, length: int) {
    (r.open.samples == [] ==> r.closed == []) &&
    (r.open.samples != [] ==> Short(r.open.samples, length)) &&
    (forall c <- r.closed :: Short(c, length)) &&
    forall i :: 0 <= i < |r.closed| ==> StartAfter(r, i) - StartOf(r.closed[i]) >= length
  }

  lemma FlattenLast(runs: seq<seq<TimedSample>>, last: seq<TimedSample>)
    ensures Flatten(runs + [last]) == Flatten(runs) + last
  {
    assert (runs + [last])[..|runs|] == runs;
  }

  lemma StepCuts(r: Run, input: Input, length: int)
    requires length > 0 && Cut(r, length)
    ensures Cut(Step(r, input, length), length)
  {
    var n := Step(r, input, length);
    if n.closed == r.closed {
      forall i | 0 <= i < |n.closed|
        ensures StartAfter(n, i) == StartAfter(r, i)
      {
      }
    } else if input.Push? && n.closed != [] {
      assert n.closed == r.closed + [r.open.samples];
      forall i | 0 <= i < |n.closed|
        ensures StartAfter(n, i) - StartOf(n.closed[i]) >= length
      {
        assert i < |r.closed| ==> StartAfter(n, i) == StartAfter(r, i) && n.closed[i] == r.closed[i];
      }
    }
  }

  predicate Joins(closed: seq<seq<TimedSample>>, open: Interval, accepted: seq<TimedSample>) {
    Flatten(closed) + open.samples == accepted && open.base == |Flatten(closed)| &&
    (open.samples == [] ==> accepted == [])
  }

  predicate Split(r: Run, accepted: seq<TimedSample>) {
    Joins(r.closed, r.open, accepted) && Ordered(accepted) && SameRevision(accepted)
  }

  function Accept(before: seq<TimedSample>, input: Input): seq<TimedSample> {
    if input.Reset? then []
    else if before == [] || input.sample.revision != before[0].revision then [input.sample]
    else if input.sample.mono < before[|before| - 1].mono then before
    else before + [input.sample]
  }

  lemma AcceptKeeps(before: seq<TimedSample>, input: Input)
    requires Ordered(before) && SameRevision(before)
    ensures Ordered(Accept(before, input)) && SameRevision(Accept(before, input))
  {
  }

  lemma OpenEnds(flat: seq<TimedSample>, open: seq<TimedSample>)
    requires open != [] && SameRevision(flat + open)
    ensures (flat + open)[|flat + open| - 1] == open[|open| - 1]
    ensures open[0].revision == (flat + open)[0].revision
  {
    assert (flat + open)[|flat|] == open[0];
  }

  lemma JoinsAppended(closed: seq<seq<TimedSample>>, open: Interval, accepted: seq<TimedSample>, s: TimedSample)
    requires Joins(closed, open, accepted)
    ensures Joins(closed, open.(samples := open.samples + [s]), accepted + [s])
  {
    assert Flatten(closed) + open.samples + [s] == Flatten(closed) + (open.samples + [s]);
  }

  lemma JoinsClosed(closed: seq<seq<TimedSample>>, open: Interval, accepted: seq<TimedSample>, s: TimedSample)
    requires Joins(closed, open, accepted)
    ensures Joins(closed + [open.samples], Interval([s], open.base + |open.samples|), accepted + [s])
  {
    FlattenLast(closed, open.samples);
  }

  lemma JoinsFirst(s: TimedSample)
    ensures Joins([], Interval([s], 0), [s])
  {
    assert Flatten([]) + [s] == [s];
  }

  lemma StepJoins(r: Run, accepted: seq<TimedSample>, s: TimedSample, length: int)
    requires Joins(r.closed, r.open, accepted) && SameRevision(accepted)
    ensures var n := Step(r, Push(s), length); Joins(n.closed, n.open, Accept(accepted, Push(s)))
  {
    var open := r.open.samples;
    if open == [] {
      assert Flatten(r.closed) == [] && Flatten(r.closed) + [s] == [s];
      return;
    }
    OpenEnds(Flatten(r.closed), open);
    if s.revision != open[0].revision {
      JoinsFirst(s);
    } else if s.mono >= open[|open| - 1].mono {
      TakenJoins(r, accepted, s, length);
    }
  }

  /** A sample of the same revision that does not go back in time. */
  lemma TakenJoins(r: Run, accepted: seq<TimedSample>, s: TimedSample, length: int)
    requires Joins(r.closed, r.open, accepted) && r.open.samples != []
    requires s.revision == r.open.samples[0].revision && s.mono >= r.open.samples[|r.open.samples| - 1].mono
    ensures var n := Step(r, Push(s), length); Joins(n.closed, n.open, accepted + [s])
  {
    if s.mono - r.open.samples[0].mono >= length {
      JoinsClosed(r.closed, r.open, accepted, s);
    } else {
      JoinsAppended(r.closed, r.open, accepted, s);
    }
  }

  lemma StepSplits(r: Run, accepted: seq<TimedSample>, input: Input, length: int)
    requires Split(r, accepted)
    ensures Split(Step(r, input, length), Accept(accepted, input))
  {
    AcceptKeeps(accepted, input);
    if input.Push? {
      StepJoins(r, accepted, input.sample, length);
    }
  }

  /** Between resets the closed intervals and the open one split the accepted samples into
      consecutive runs, each shorter than the interval and each as long as it can be. */
  lemma {:induction false} IntervalsSplitAccepted(inputs: seq<Input>, length: int)
    requires length > 0
    ensures Split(RunAll(inputs, length), Accepted(inputs)) && Cut(RunAll(inputs, length), length)
    decreases |inputs|
  {
    if inputs != [] {
      var init, last := inputs[..|inputs| - 1], inputs[|inputs| - 1];
      IntervalsSplitAccepted(init, length);
      StepCuts(RunAll(init, length), last, length);
      StepSplits(RunAll(init, length), Accepted(init), last, length);
    }
  }

  /** A batch shows samples in increasing order and nondecreasing time, from the first of the
      interval to the last, and no sample above or below the ones it shows was left out. */
  lemma ShownInOrder(samples: seq<TimedSample>, axis: AxisIndex)
    requires samples != [] && Ordered(samples)
    ensures var keys := Keys(samples, axis, |samples|);
            Under(keys, |samples|) && Increasing(keys) && keys != [] &&
            keys[0] == 0 && keys[|keys| - 1] == |samples| - 1 &&
            forall i, j :: 0 <= i < j < |keys| ==> samples[keys[i]].mono <= samples[keys[j]].mono
    ensures forall s <- samples ::
              exists lo, hi :: lo in Keys(samples, axis, |samples|) && hi in Keys(samples, axis, |samples|) &&
                               lo < |samples| && hi < |samples| &&
                               AxisValue(samples[lo], axis) <= AxisValue(s, axis) <= AxisValue(samples[hi], axis)
  {
    KeysAre(samples, axis, |samples|);
    var keys := Keys(samples, axis, |samples|);
    assert Key(samples, axis, 0) && Key(samples, axis, |samples| - 1);
    KeysEnds(keys, |samples| - 1);
    var lo, hi := Extremes(samples, axis);
    assert Key(samples, axis, lo) && Key(samples, axis, hi);
    assert lo in keys && hi in keys;
  }

  lemma KeysEnds(keys: seq<nat>, last: nat)
    requires Increasing(keys) && Under(keys, last + 1) && 0 in keys && last in keys
    ensures keys != [] && keys[0] == 0 && keys[|keys| - 1] == last
  {
  }

  lemma {:induction false} Extremes(samples: seq<TimedSample>, axis: AxisIndex) returns (lo: nat, hi: nat)
    requires samples != []
    ensures Lowest(samples, axis, lo) && Highest(samples, axis, hi)
    decreases |samples|
  {
    var init, last := samples[..|samples| - 1], |samples| - 1;
    assert samples == init + [samples[last]];
    if init == [] {
      lo, hi := 0, 0;
    } else {
      lo, hi := Extremes(init, axis);
      assert samples[lo] == init[lo] && samples[hi] == init[hi];
      if AxisValue(samples[last], axis) < AxisValue(samples[lo], axis) {
        lo := last;
      }
      if AxisValue(samples[last], axis) > AxisValue(samples[hi], axis) {
        hi := last;
      }
    }
  }

  /** The first three axes show force: every point is the host time and the force of a sample,
      and the lowest and the highest force of the interval are among them. */
  lemma ForceIsShown(samples: seq<TimedSample>, axis: nat)
    requires samples != [] && Ordered(samples) && axis < 3
    ensures forall p <- AxisPoints(samples, axis) ::
              exists k :: 0 <= k < |samples| && p == PlotPoint(samples[k].host, samples[k].force[axis])
    ensures forall s <- samples :: exists lo, hi ::
              lo in AxisPoints(samples, axis) && hi in AxisPoints(samples, axis) &&
              lo.value <= s.force[axis] <= hi.value
  {
    PointsAreShown(samples, axis);
    forall s | s in samples
      ensures exists lo, hi ::
                lo in AxisPoints(samples, axis) && hi in AxisPoints(samples, axis) &&
                lo.value <= s.force[axis] <= hi.value
    {
      var lo, hi := ShownBounds(samples, axis, s);
      assert lo.value <= AxisValue(s, axis) <= hi.value;
    }
  }

  /** And the other three show torque. */
  lemma TorqueIsShown(samples: seq<TimedSample>, axis: nat)
    requires samples != [] && Ordered(samples) && 3 <= axis < 6
    ensures forall p <- AxisPoints(samples, axis) ::
              exists k :: 0 <= k < |samples| && p == PlotPoint(samples[k].host, samples[k].torque[axis - 3])
    ensures forall s <- samples :: exists lo, hi ::
              lo in AxisPoints(samples, axis) && hi in AxisPoints(samples, axis) &&
              lo.value <= s.torque[axis - 3] <= hi.value
  {
    PointsAreShown(samples, axis);
    forall s | s in samples
      ensures exists lo, hi ::
                lo in AxisPoints(samples, axis) && hi in AxisPoints(samples, axis) &&
                lo.value <= s.torque[axis - 3] <= hi.value
    {
      var lo, hi := ShownBounds(samples, axis, s);
      assert lo.value <= AxisValue(s, axis) <= hi.value;
    }
  }

  lemma PointsAreShown(samples: seq<TimedSample>, axis: AxisIndex)
    ensures forall p <- AxisPoints(samples, axis) ::
              exists k :: 0 <= k < |samples| && p == PlotPoint(samples[k].host, AxisValue(samples[k], axis))
    ensures forall k <- Keys(samples, axis, |samples|) ::
              k < |samples| && PlotPoint(samples[k].host, AxisValue(samples[k], axis)) in AxisPoints(samples, axis)
  {
    var keys, points := Keys(samples, axis, |samples|), AxisPoints(samples, axis);
    KeysAre(samples, axis, |samples|);
    forall p | p in points
      ensures exists k :: 0 <= k < |samples| && p == PlotPoint(samples[k].host, AxisValue(samples[k], axis))
    {
      var i :| 0 <= i < |points| && points[i] == p;
      assert p == PlotPoint(samples[keys[i]].host, AxisValue(samples[keys[i]], axis));
    }
    forall k | k in keys
      ensures k < |samples| && PlotPoint(samples[k].host, AxisValue(samples[k], axis)) in points
    {
      var i :| 0 <= i < |keys| && keys[i] == k;
      assert points[i] == PlotPoint(samples[k].host, AxisValue(samples[k], axis));
    }
  }

  lemma ShownBounds(samples: seq<TimedSample>, axis: AxisIndex, s: TimedSample) returns (lo: PlotPoint, hi: PlotPoint)
    requires samples != [] && Ordered(samples) && s in samples
    ensures lo in AxisPoints(samples, axis) && hi in AxisPoints(samples, axis)
    ensures lo.value <= AxisValue(s, axis) <= hi.value
  {
    ShownInOrder(samples, axis);
    PointsAreShown(samples, axis);
    var i, j :| i in Keys(samples, axis, |samples|) && j in Keys(samples, axis, |samples|) && i < |samples| &&
                j < |samples| && AxisValue(samples[i], axis) <= AxisValue(s, axis) <= AxisValue(samples[j], axis);
    lo := PlotPoint(samples[i].host, AxisValue(samples[i], axis));
    hi := PlotPoint(samples[j].host, AxisValue(samples[j], axis));
  }

  /** Which samples are accepted: the first one, the first of a new configuration, and every one
      that is not earlier than all accepted before it. */
  lemma AcceptsExactly(inputs: seq<Input>, s: TimedSample, length: int)
    requires length > 0
    ensures var was, now := Accepted(inputs), Accepted(inputs + [Push(s)]);
            if was == [] || s.revision != was[0].revision then now == [s]
            else if forall a <- was :: a.mono <= s.mono then now == was + [s]
            else now == was
  {
    assert (inputs + [Push(s)])[..|inputs|] == inputs;
    IntervalsSplitAccepted(inputs, length);
    var was := Accepted(inputs);
    if was != [] {
      assert was[|was| - 1] in was;
    }
  }
}
