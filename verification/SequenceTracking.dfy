/** Sequence numbers modulo 2^32: the two trackers, and what the RDT tracker says about the
    true, unbounded numbers behind the received ones. */
module SequenceTracking {
  import opened Wrappers

  const HALF: int := 0x8000_0000
  const RESTART_LOW_MAX: int := 0xffff

  type U32 = x: int | 0 <= x < 0x1_0000_0000

  /** The unsigned difference current - previous. */
  function Delta(current: U32, previous: U32): U32 {
    if current >= previous then current - previous else current - previous + 0x1_0000_0000
  }

  function Low(t: int): U32 { t % 0x1_0000_0000 }

  datatype Kind = First | Contiguous | Gap(lost: int) | Duplicate | OutOfOrder

  /** The kind of a number that follows the given baseline. */
  function KindOf(last: Option<U32>, current: U32): Kind {
    if last.None? then First
    else
      var delta := Delta(current, last.value);
      if delta == 0 then Duplicate
      else if delta == 1 then Contiguous
      else if delta < HALF then Gap(delta - 1)
      else OutOfOrder
  }

  function BaselineAfter(last: Option<U32>, current: U32): Option<U32> {
    match KindOf(last, current)
    case Duplicate => last
    case OutOfOrder => last
    case _ => Some(current)
  }

  class RdtTracker {
    var hasLast: bool
    var previous: U32

    function Baseline(): Option<U32>
      reads this
    {
      if hasLast then Some(previous) else None
    }

    constructor ()
      ensures Baseline() == None
    {
      hasLast, previous := false, 0;
    }

    method Observe(current: U32) returns (kind: Kind)
      modifies this
      ensures kind == KindOf(old(Baseline()), current)
      ensures Baseline() == BaselineAfter(old(Baseline()), current)
    {
      if !hasLast {
        hasLast := true;
        previous := current;
        return First;
      }
      var delta := Delta(current, previous);
      if delta == 0 {
        return Duplicate;
      }
      if delta < HALF {
        previous := current;
        return if delta == 1 then Contiguous else Gap(delta - 1);
      }
      return OutOfOrder;
    }

    method Reset()
      modifies this
      ensures Baseline() == None
    {
      hasLast := false;
    }
  }

  // The true numbers behind the received ones.

  function Highest(ts: seq<int>): int
    requires ts != []
  {
    var init := ts[..|ts| - 1];
    if init == [] || ts[|ts| - 1] > Highest(init) then ts[|ts| - 1] else Highest(init)
  }

  /** The nearest number to the highest so far that has the received low 32 bits; a number
      exactly half the range away counts as older. */
  function Nearest(high: int, value: U32): int {
    var delta := Delta(value, Low(high));
    if delta < HALF then high + delta else high + delta - 0x1_0000_0000
  }

  /** The unwrapped numbers of a span of received ones. */
  function Lift(values: seq<U32>): (ts: seq<int>)
    ensures |ts| == |values|
  {
    if values == [] then []
    else
      var init, last := Lift(values[..|values| - 1]), values[|values| - 1];
      if init == [] then [last] else init + [Nearest(Highest(init), last)]
  }

  lemma LowNearest(high: int, value: U32)
    ensures Low(Nearest(high, value)) == value
    ensures Near(high, Nearest(high, value))
  {
  }

  lemma HighestSnoc(ts: seq<int>, t: int)
    ensures Highest(ts + [t]) == if ts == [] || t > Highest(ts) then t else Highest(ts)
  {
    assert (ts + [t])[..|ts|] == ts;
  }

  lemma LiftSnoc(values: seq<U32>, value: U32)
    ensures Lift(values + [value]) ==
            Lift(values) + [if values == [] then value else Nearest(Highest(Lift(values)), value)]
  {
    assert (values + [value])[..|values|] == values;
  }

  /** The tracker's baseline is the highest unwrapped number so far. */
  function BaselineOf(values: seq<U32>): Option<U32> {
    if values == [] then None else Some(Low(Highest(Lift(values))))
  }

  lemma BaselineFollows(values: seq<U32>, value: U32)
    ensures BaselineAfter(BaselineOf(values), value) == BaselineOf(values + [value])
  {
    LiftSnoc(values, value);
    if values == [] {
      HighestSnoc([], value);
      assert [] + [value] == Lift(values + [value]);
    } else {
      var high := Highest(Lift(values));
      HighestSnoc(Lift(values), Nearest(high, value));
      LowNearest(high, value);
    }
  }

  /** The tracker's classification is the order of the unwrapped numbers. */
  lemma KindIsOrder(values: seq<U32>, value: U32)
    requires values != []
    ensures var high, t := Highest(Lift(values)), Nearest(Highest(Lift(values)), value);
            match KindOf(BaselineOf(values), value)
            case First => false
            case Duplicate => t == high
            case OutOfOrder => t < high
            case Contiguous => t == high + 1
            case Gap(lost) => t > high + 1 && lost == t - high - 1
  {
  }

  /** t is less than half the range ahead of high, or at most half the range behind it. */
  predicate Near(high: int, t: int) { -HALF <= t - high < HALF }

  /** Numbers that never stray half the range from the highest before them. */
  predicate InHalfRange(ts: seq<int>) {
    ts == [] ||
    (var init, last := ts[..|ts| - 1], ts[|ts| - 1];
     InHalfRange(init) && (init != [] ==> Near(Highest(init), last)))
  }

  lemma HalfRangeSnoc(ts: seq<int>, t: int)
    ensures InHalfRange(ts + [t]) <==> InHalfRange(ts) && (ts != [] ==> Near(Highest(ts), t))
  {
    assert (ts + [t])[..|ts|] == ts;
  }

  /** The low 32 bits of each number. */
  function Received(ts: seq<int>): (r: seq<U32>)
    ensures |r| == |ts|
  {
    if ts == [] then [] else Received(ts[..|ts| - 1]) + [Low(ts[|ts| - 1])]
  }

  lemma LowShift(t: int, k: int)
    ensures Low(t + k * 0x1_0000_0000) == Low(t)
  {
  }

  /** The distance of two numbers less than half the range apart shows in their low bits. */
  lemma DeltaIsDistance(high: int, t: int)
    requires Near(high, t)
    ensures Delta(Low(t), Low(high)) == if t >= high then t - high else t - high + 0x1_0000_0000
  {
    var q, r := high / 0x1_0000_0000, high % 0x1_0000_0000;
    assert high == q * 0x1_0000_0000 + r;
    var d := r + (t - high);
    assert t == q * 0x1_0000_0000 + d;
    if d < 0 {
      LowShift(d + 0x1_0000_0000, q - 1);
    } else if d < 0x1_0000_0000 {
      LowShift(d, q);
    } else {
      LowShift(d - 0x1_0000_0000, q + 1);
    }
  }

  lemma NearestIsTrue(high: int, t: int, shift: int)
    requires Near(high, t) && shift % 0x1_0000_0000 == 0
    ensures Nearest(high + shift, Low(t)) == t + shift
  {
    DeltaIsDistance(high, t);
    LowShift(high, shift / 0x1_0000_0000);
    assert shift == shift / 0x1_0000_0000 * 0x1_0000_0000;
  }

  /** Every number moved by the same distance. */
  function Shifted(ts: seq<int>, shift: int): (r: seq<int>)
    ensures |r| == |ts|
  {
    if ts == [] then [] else Shifted(ts[..|ts| - 1], shift) + [ts[|ts| - 1] + shift]
  }

  lemma ReceivedSnoc(ts: seq<int>, t: int)
    ensures Received(ts + [t]) == Received(ts) + [Low(t)]
  {
    assert (ts + [t])[..|ts|] == ts;
  }

  lemma ShiftedSnoc(ts: seq<int>, t: int, shift: int)
    ensures Shifted(ts + [t], shift) == Shifted(ts, shift) + [t + shift]
  {
    assert (ts + [t])[..|ts|] == ts;
  }

  lemma LiftOne(t: int)
    ensures Lift([Low(t)]) == [Low(t)] && Highest([Low(t)]) == Low(t) && Highest([t]) == t
  {
    LiftSnoc([], Low(t));
    HighestSnoc([], Low(t));
    HighestSnoc([], t);
    assert [] + [Low(t)] == [Low(t)] && [] + [t] == [t];
  }

  lemma LiftOfOne(t: int)
    ensures var shift := Low(t) - t;
            Lift(Received([t])) == Shifted([t], shift) && Highest(Lift(Received([t]))) == Highest([t]) + shift
  {
    LiftOne(t);
    ReceivedSnoc([], t);
    ShiftedSnoc([], t, Low(t) - t);
    assert [] + [t] == [t] && [] + [Low(t)] == [Low(t)];
  }

  lemma NextLift(values: seq<U32>, high: int, value: U32)
    requires values != [] && Highest(Lift(values)) == high
    ensures var t := Nearest(high, value);
            Lift(values + [value]) == Lift(values) + [t] &&
            Highest(Lift(values + [value])) == if t > high then t else high
  {
    LiftSnoc(values, value);
    HighestSnoc(Lift(values), Nearest(high, value));
  }

  lemma HighestMore(init: seq<int>, last: int, shift: int)
    requires init != []
    ensures Highest(init + [last]) + shift ==
            if last + shift > Highest(init) + shift then last + shift else Highest(init) + shift
  {
    HighestSnoc(init, last);
  }

  /** One more number in the half range is recovered. */
  lemma LiftMore(init: seq<int>, last: int, shift: int)
    requires init != [] && shift % 0x1_0000_0000 == 0 && Near(Highest(init), last)
    requires Lift(Received(init)) == Shifted(init, shift)
    requires Highest(Lift(Received(init))) == Highest(init) + shift
    ensures Lift(Received(init + [last])) == Shifted(init, shift) + [last + shift]
    ensures Highest(Lift(Received(init + [last]))) == Highest(init + [last]) + shift
  {
    NearestIsTrue(Highest(init), last, shift);
    HighestMore(init, last, shift);
    LiftNext(init, last, Highest(init) + shift, last + shift);
  }

  lemma LiftNext(init: seq<int>, last: int, high: int, t: int)
    requires init != [] && Highest(Lift(Received(init))) == high && Nearest(high, Low(last)) == t
    ensures Lift(Received(init + [last])) == Lift(Received(init)) + [t]
    ensures Highest(Lift(Received(init + [last]))) == if t > high then t else high
  {
    NextLift(Received(init), high, Low(last));
    ReceivedSnoc(init, last);
  }

  lemma ShiftIsMultiple(t: int)
    ensures (Low(t) - t) % 0x1_0000_0000 == 0
  {
  }

  /** The span starts at its first number; everything else is relative to it. */
  function Shift(ts: seq<int>): int {
    if ts == [] then 0 else Low(ts[0]) - ts[0]
  }

  predicate Recovered(ts: seq<int>, shift: int)
    requires ts != []
  {
    Lift(Received(ts)) == Shifted(ts, shift) && Highest(Lift(Received(ts))) == Highest(ts) + shift
  }

  /** In the half range unwrapping recovers the true numbers, up to where the span starts. */
  lemma {:induction false} LiftRecovers(ts: seq<int>)
    requires ts != [] && InHalfRange(ts)
    ensures Recovered(ts, Shift(ts))
    decreases |ts|
  {
    var init, last := ts[..|ts| - 1], ts[|ts| - 1];
    assert ts == init + [last];
    if init == [] {
      assert ts == [last];
      LiftOfOne(last);
    } else {
      ShiftIsMultiple(ts[0]);
      assert Shift(ts) == Shift(init);
      LiftRecovers(init);
      LiftMore(init, last, Shift(init));
      ShiftedSnoc(init, last, Shift(init));
    }
  }

  /** What unwrapping returns never strays half the range. */
  lemma {:induction false} LiftInHalfRange(values: seq<U32>)
    ensures InHalfRange(Lift(values))
    decreases |values|
  {
    if values != [] {
      var init, last := values[..|values| - 1], values[|values| - 1];
      assert values == init + [last];
      LiftInHalfRange(init);
      LiftSnoc(init, last);
      if init == [] {
        HalfRangeSnoc(Lift(init), last);
      } else {
        LowNearest(Highest(Lift(init)), last);
        HalfRangeSnoc(Lift(init), Nearest(Highest(Lift(init)), last));
      }
    }
  }

  lemma HighestShiftsMore(init: seq<int>, last: int, shift: int)
    requires init != [] ==> Highest(Shifted(init, shift)) == Highest(init) + shift
    ensures Highest(Shifted(init + [last], shift)) == Highest(init + [last]) + shift
  {
    ShiftedSnoc(init, last, shift);
    HighestSnoc(init, last);
    HighestSnoc(Shifted(init, shift), last + shift);
  }

  lemma {:induction false} HighestShifts(ts: seq<int>, shift: int)
    requires ts != []
    ensures Highest(Shifted(ts, shift)) == Highest(ts) + shift
    decreases |ts|
  {
    var init, last := ts[..|ts| - 1], ts[|ts| - 1];
    if init != [] {
      HighestShifts(init, shift);
    }
    HighestShiftsMore(init, last, shift);
    assert ts == init + [last];
  }

  lemma HalfRangeShiftsMore(init: seq<int>, last: int, shift: int)
    requires InHalfRange(Shifted(init + [last], shift)) && (InHalfRange(Shifted(init, shift)) ==> InHalfRange(init))
    ensures InHalfRange(init + [last]) && InHalfRange(Shifted(init, shift))
  {
    ShiftedSnoc(init, last, shift);
    HalfRangeSnoc(Shifted(init, shift), last + shift);
    HalfRangeSnoc(init, last);
    if init != [] {
      HighestShifts(init, shift);
    }
  }

  lemma {:induction false} HalfRangeShifts(ts: seq<int>, shift: int)
    ensures InHalfRange(Shifted(ts, shift)) ==> InHalfRange(ts)
    decreases |ts|
  {
    if ts != [] && InHalfRange(Shifted(ts, shift)) {
      var init, last := ts[..|ts| - 1], ts[|ts| - 1];
      HalfRangeShifts(init, shift);
      assert ts == init + [last];
      HalfRangeShiftsMore(init, last, shift);
    }
  }

  /** Unwrapping recovers the true numbers, up to where the span starts, if and only if they
      stay in the half range. */
  lemma LiftIsTrue(ts: seq<int>)
    requires ts != []
    ensures Lift(Received(ts)) == Shifted(ts, Shift(ts)) <==> InHalfRange(ts)
  {
    if InHalfRange(ts) {
      LiftRecovers(ts);
    }
    LiftInHalfRange(Received(ts));
    if Lift(Received(ts)) == Shifted(ts, Shift(ts)) {
      HalfRangeShifts(ts, Shift(ts));
    }
  }

  // Counting a span.

  datatype Tally = Tally(received: int, lost: int, duplicates: int, late: int)

  const NOTHING := Tally(0, 0, 0, 0)

  function Counted(t: Tally, kind: Kind): Tally {
    var r := t.(received := t.received + 1);
    match kind
    case Gap(lost) => r.(lost := r.lost + lost)
    case Duplicate => r.(duplicates := r.duplicates + 1)
    case OutOfOrder => r.(late := r.late + 1)
    case _ => r
  }

  function SpanTally(values: seq<U32>): Tally {
    if values == [] then NOTHING
    else
      var init := values[..|values| - 1];
      Counted(SpanTally(init), KindOf(BaselineOf(init), values[|values| - 1]))
  }

  /** How far a span advanced, counting its first number. */
  function Advance(values: seq<U32>): int {
    if values == [] then 0 else Highest(Lift(values)) - Lift(values)[0] + 1
  }

  /** Conservation over a span: what was received or lost is the advance, and the repeats. */
  lemma {:induction false} SpanConserves(values: seq<U32>)
    ensures var t := SpanTally(values);
            t.received == |values| && t.received + t.lost == Advance(values) + t.duplicates + t.late
    decreases |values|
  {
    if values != [] {
      var init, last := values[..|values| - 1], values[|values| - 1];
      assert values == init + [last];
      SpanConserves(init);
      SpanStep(init, last);
    }
  }

  /** One more number counts as received or lost as much as the span advances, or repeats. */
  lemma SpanStep(init: seq<U32>, last: U32)
    ensures var c, a := Counted(NOTHING, KindOf(BaselineOf(init), last)), Advance(init + [last]) - Advance(init);
            c.received + c.lost == a + c.duplicates + c.late && c.received == 1
  {
    LiftSnoc(init, last);
    if init == [] {
      HighestSnoc([], last);
      assert [] + [last] == Lift(init + [last]);
    } else {
      KindIsOrder(init, last);
      HighestSnoc(Lift(init), Nearest(Highest(Lift(init)), last));
    }
  }

  lemma {:induction false} ShiftedFirst(ts: seq<int>, shift: int)
    requires ts != []
    ensures Shifted(ts, shift)[0] == ts[0] + shift
    decreases |ts|
  {
    if |ts| > 1 {
      ShiftedFirst(ts[..|ts| - 1], shift);
    }
  }

  lemma TrueAdvance(ts: seq<int>)
    requires ts != [] && InHalfRange(ts)
    ensures Advance(Received(ts)) == Highest(ts) - ts[0] + 1
  {
    LiftRecovers(ts);
    ShiftedFirst(ts, Shift(ts));
  }

  /** Conservation in terms of true numbers: in the half range nothing is miscounted. */
  lemma TrueConservation(ts: seq<int>)
    requires ts != [] && InHalfRange(ts)
    ensures var t := SpanTally(Received(ts));
            t.received + t.lost == Highest(ts) - ts[0] + 1 + t.duplicates + t.late
  {
    TrueAdvance(ts);
    SpanConserves(Received(ts));
  }

  lemma SpanTallySnoc(span: seq<U32>, value: U32)
    ensures SpanTally(span + [value]) == Counted(SpanTally(span), KindOf(BaselineOf(span), value))
  {
    assert (span + [value])[..|span|] == span;
  }

  /** Half the range away in either direction is the same low bits, and counts as older. */
  lemma HalfIsOlder(high: int, shift: int)
    requires shift % 0x1_0000_0000 == 0
    ensures Delta(Low(high + HALF), Low(high + shift)) == HALF
  {
    DeltaIsDistance(high, high - HALF);
    LowShift(high - HALF, 1);
    LowShift(high, shift / 0x1_0000_0000);
    assert shift == shift / 0x1_0000_0000 * 0x1_0000_0000;
  }

  lemma BaselineRecovers(ts: seq<int>)
    requires ts != [] && InHalfRange(ts)
    ensures BaselineOf(Received(ts)) == Some(Low(Highest(ts) + Shift(ts))) && Shift(ts) % 0x1_0000_0000 == 0
  {
    LiftRecovers(ts);
    ShiftIsMultiple(ts[0]);
  }

  lemma LateAtHalf(base: U32, value: U32)
    requires Delta(value, base) == HALF
    ensures KindOf(Some(base), value) == OutOfOrder
  {
  }

  lemma OlderThanBaseline(baseline: Option<U32>, high: int, shift: int)
    requires shift % 0x1_0000_0000 == 0 && baseline == Some(Low(high + shift))
    ensures KindOf(baseline, Low(high + HALF)) == OutOfOrder
  {
    HalfIsOlder(high, shift);
    LateAtHalf(Low(high + shift), Low(high + HALF));
  }

  lemma HalfAheadIsLate(ts: seq<int>)
    requires ts != [] && InHalfRange(ts)
    ensures KindOf(BaselineOf(Received(ts)), Low(Highest(ts) + HALF)) == OutOfOrder
  {
    BaselineRecovers(ts);
    OlderThanBaseline(BaselineOf(Received(ts)), Highest(ts), Shift(ts));
  }

  lemma HalfAheadCounts(ts: seq<int>)
    requires ts != [] && InHalfRange(ts)
    ensures var was, t := SpanTally(Received(ts)), Highest(ts) + HALF;
            SpanTally(Received(ts + [t])) == was.(received := was.received + 1, late := was.late + 1)
  {
    HalfAheadIsLate(ts);
    LateIsCounted(ts, Highest(ts) + HALF);
  }

  lemma LateIsCounted(ts: seq<int>, t: int)
    requires KindOf(BaselineOf(Received(ts)), Low(t)) == OutOfOrder
    ensures var was := SpanTally(Received(ts));
            SpanTally(Received(ts + [t])) == was.(received := was.received + 1, late := was.late + 1)
  {
    LateCounts(Received(ts), Low(t));
    ReceivedSnoc(ts, t);
  }

  lemma LateCounts(span: seq<U32>, value: U32)
    requires KindOf(BaselineOf(span), value) == OutOfOrder
    ensures var was := SpanTally(span);
            SpanTally(span + [value]) == was.(received := was.received + 1, late := was.late + 1)
  {
    SpanTallySnoc(span, value);
  }

  lemma UnwrapsExactly(ts: seq<int>, t: int)
    requires ts != [] && InHalfRange(ts)
    ensures Lift(Received(ts + [t])) == Shifted(ts + [t], Shift(ts + [t])) <==> Near(Highest(ts), t)
  {
    HalfRangeSnoc(ts, t);
    LiftIsTrue(ts + [t]);
  }

  /** The next number after a span in the half range is unwrapped right exactly when it stays
      in it. A jump of half the range ahead, the nearest that does not, counts as out of order:
      nothing is counted as lost, although the number moved ahead by half the range. */
  lemma HalfRangeJump(ts: seq<int>, t: int)
    requires ts != [] && InHalfRange(ts)
    ensures Lift(Received(ts + [t])) == Shifted(ts + [t], Shift(ts + [t])) <==> Near(Highest(ts), t)
    ensures var was := SpanTally(Received(ts));
            t == Highest(ts) + HALF ==>
              SpanTally(Received(ts + [t])) == was.(received := was.received + 1, late := was.late + 1)
  {
    UnwrapsExactly(ts, t);
    HalfAheadCounts(ts);
  }

  // The FT tracker, which also recognises a device restart.

  datatype FtKind = FtFirst | Forward | Stall | Backward | Restart

  datatype Ft = Ft(last: Option<U32>, candidate: Option<U32>)

  predicate RestartSeen(ft: Ft, current: U32) {
    ft.last.Some? && ft.candidate.Some? && ft.last.value > RESTART_LOW_MAX &&
    ft.candidate.value <= RESTART_LOW_MAX && current <= RESTART_LOW_MAX &&
    0 < Delta(current, ft.candidate.value) < HALF
  }

  function FtKindOf(ft: Ft, current: U32): FtKind {
    if ft.last.None? then FtFirst
    else if current == ft.last.value then Stall
    else if Delta(current, ft.last.value) < HALF then Forward
    else if RestartSeen(ft, current) then Restart
    else Backward
  }

  function FtAfter(ft: Ft, current: U32): Ft {
    match FtKindOf(ft, current)
    case FtFirst => ft.(last := Some(current))
    case Stall => ft.(candidate := None)
    case Forward => Ft(Some(current), None)
    case Restart => Ft(Some(current), None)
    case Backward => ft.(candidate := Some(current))
  }

  class FtTracker {
    var hasLast: bool
    var previous: U32
    var hasCandidate: bool
    var candidate: U32

    function View(): Ft
      reads this
    {
      Ft(if hasLast then Some(previous) else None, if hasCandidate then Some(candidate) else None)
    }

    constructor ()
      ensures View() == Ft(None, None)
    {
      hasLast, previous, hasCandidate, candidate := false, 0, false, 0;
    }

    method BeginSession()
      modifies this
      ensures View() == old(View()).(candidate := None)
    {
      hasCandidate := false;
    }

    method Observe(current: U32) returns (kind: FtKind)
      modifies this
      ensures kind == FtKindOf(old(View()), current) && View() == FtAfter(old(View()), current)
    {
      if !hasLast {
        hasLast := true;
        previous := current;
        return FtFirst;
      }
      if current == previous {
        hasCandidate := false;
        return Stall;
      }
      var delta := Delta(current, previous);
      if delta < HALF {
        previous := current;
        hasCandidate := false;
        return Forward;
      }
      if previous >= RESTART_LOW_MAX + 1 && hasCandidate && candidate <= RESTART_LOW_MAX &&
         current <= RESTART_LOW_MAX {
        var candidateDelta := Delta(current, candidate);
        if 0 < candidateDelta < HALF {
          previous := current;
          hasCandidate := false;
          return Restart;
        }
      }
      candidate := current;
      hasCandidate := true;
      return Backward;
    }
  }

  // Runs of the FT tracker.

  const UNSEEN := Ft(None, None)

  function FtRun(ft: Ft, values: seq<U32>): Ft {
    if values == [] then ft else FtAfter(FtRun(ft, values[..|values| - 1]), values[|values| - 1])
  }

  /** What the tracker says about the i-th number. */
  function FtKindAt(ft: Ft, values: seq<U32>, i: nat): FtKind
    requires i < |values|
  {
    FtKindOf(FtRun(ft, values[..i]), values[i])
  }

  predicate RisingLow(values: seq<U32>) {
    (forall v <- values :: v <= RESTART_LOW_MAX) && forall i :: 0 < i < |values| ==> values[i - 1] < values[i]
  }

  lemma FtRunSnoc(ft: Ft, values: seq<U32>, i: nat)
    requires i < |values|
    ensures FtRun(ft, values[..i + 1]) == FtAfter(FtRun(ft, values[..i]), values[i])
  {
    assert values[..i + 1][..i] == values[..i];
  }

  /** A number that rises from a low baseline is ahead of it. */
  lemma LowIsForward(ft: Ft, value: U32)
    requires ft.last.Some? && ft.last.value < value <= RESTART_LOW_MAX
    ensures FtKindOf(ft, value) == Forward && FtAfter(ft, value) == Ft(Some(value), None)
  {
  }

  /** Two rising low numbers after a high baseline make the second the baseline. */
  lemma SecondIsBelieved(ft: Ft, first: U32, second: U32)
    requires ft.last.Some? && ft.last.value > RESTART_LOW_MAX && first < second <= RESTART_LOW_MAX
    ensures FtKindOf(ft, first) in {Forward, Backward, Restart}
    ensures FtKindOf(FtAfter(ft, first), second) == if FtKindOf(ft, first) == Backward then Restart else Forward
    ensures FtAfter(FtAfter(ft, first), second) == Ft(Some(second), None)
  {
  }

  /** A restarted device that sends rising low numbers, after any history that left a high
      baseline: its first number is Forward if it is more than half the range below the
      baseline, and costs one Backward otherwise, unless it follows another low number;
      a Backward is answered by one Restart, and every number from then on is Forward. */
  lemma {:induction false} RestartCosts(ft: Ft, values: seq<U32>, i: nat)
    requires ft.last.Some? && ft.last.value > RESTART_LOW_MAX && RisingLow(values) && i < |values|
    ensures FtKindAt(ft, values, 0) ==
            if ft.last.value - values[0] > HALF then Forward
            else if RestartSeen(ft, values[0]) then Restart
            else Backward
    ensures i > 0 ==>
              FtKindAt(ft, values, i) ==
              if i == 1 && FtKindAt(ft, values, 0) == Backward then Restart else Forward
    ensures i > 0 ==> FtRun(ft, values[..i + 1]) == Ft(Some(values[i]), None)
    decreases i
  {
    assert values[0] in values && values[i] in values;
    assert values[..0] == [];
    FtRunSnoc(ft, values, i);
    FtRunSnoc(ft, values, 0);
    if i == 1 {
      SecondIsBelieved(ft, values[0], values[1]);
    } else if i > 1 {
      RestartCosts(ft, values, i - 1);
      LowIsForward(FtRun(ft, values[..i]), values[i]);
    }
  }

  predicate NoRestart(ft: Ft, values: seq<U32>) {
    forall i :: 0 <= i < |values| ==> FtKindAt(ft, values, i) != Restart
  }

  /** Without a restart the baseline only ever moves ahead: it is the highest unwrapped number,
      as the RDT tracker has it, in every run from the start. */
  lemma {:induction false} BaselineIsHighest(values: seq<U32>)
    requires NoRestart(UNSEEN, values)
    ensures FtRun(UNSEEN, values).last == BaselineOf(values)
    decreases |values|
  {
    if values != [] {
      var init, last := values[..|values| - 1], values[|values| - 1];
      NoRestartBefore(UNSEEN, values);
      BaselineIsHighest(init);
      MovesAlike(FtRun(UNSEEN, init), last);
      BaselineFollows(init, last);
      assert values == init + [last];
    }
  }

  lemma NoRestartBefore(ft: Ft, values: seq<U32>)
    requires values != [] && NoRestart(ft, values)
    ensures NoRestart(ft, values[..|values| - 1])
    ensures FtKindOf(FtRun(ft, values[..|values| - 1]), values[|values| - 1]) != Restart
  {
    var init := values[..|values| - 1];
    forall i | 0 <= i < |init|
      ensures FtKindAt(ft, init, i) != Restart
    {
      assert init[..i] == values[..i];
      assert FtKindAt(ft, values, i) != Restart;
    }
    assert FtKindAt(ft, values, |init|) != Restart;
  }

  lemma MovesAlike(ft: Ft, value: U32)
    requires FtKindOf(ft, value) != Restart
    ensures FtAfter(ft, value).last == BaselineAfter(ft.last, value)
  {
  }

  // What the FT kinds mean, over whole runs.

  /** The candidate is the number before, if that went backward. */
  lemma {:induction false} CandidateIsPrevious(values: seq<U32>)
    ensures FtRun(UNSEEN, values).last.Some? <==> values != []
    ensures FtRun(UNSEEN, values).candidate ==
            if values != [] && FtKindAt(UNSEEN, values, |values| - 1) == Backward then Some(values[|values| - 1]) else None
    decreases |values|
  {
    if values != [] {
      CandidateIsPrevious(values[..|values| - 1]);
    }
  }

  /** In every run from the start: a number is a stall when it repeats the baseline, ahead when
      it is less than half the range ahead of it, a restart when it and the number before it are
      low and rising, the baseline is high, and the number before it went backward; and it went
      backward otherwise. */
  lemma FtKindsAre(values: seq<U32>, i: nat)
    requires i < |values|
    ensures var b, v, kind := FtRun(UNSEEN, values[..i]).last, values[i], FtKindAt(UNSEEN, values, i);
            && (b.None? <==> i == 0)
            && (kind == FtFirst <==> i == 0)
            && (kind == Stall <==> i > 0 && v == b.value)
            && (kind == Forward <==> i > 0 && 0 < (v - b.value) % 0x1_0000_0000 < 0x8000_0000)
            && (kind == Restart <==>
                  i > 0 && (v - b.value) % 0x1_0000_0000 >= 0x8000_0000 && b.value > 0xffff &&
                  FtKindAt(UNSEEN, values, i - 1) == Backward && values[i - 1] < v <= 0xffff)
  {
    var before := values[..i];
    CandidateIsPrevious(before);
    if i > 0 {
      assert before[..i - 1] == values[..i - 1] && before[i - 1] == values[i - 1];
      assert FtKindAt(UNSEEN, before, i - 1) == FtKindAt(UNSEEN, values, i - 1);
      KindsAre(FtRun(UNSEEN, before), values[i]);
    }
  }

  lemma KindsAre(ft: Ft, v: U32)
    requires ft.last.Some?
    ensures var b, kind := ft.last.value, FtKindOf(ft, v);
            && kind != FtFirst
            && (kind == Stall <==> v == b)
            && (kind == Forward <==> 0 < (v - b) % 0x1_0000_0000 < 0x8000_0000)
            && (kind == Restart <==>
                  (v - b) % 0x1_0000_0000 >= 0x8000_0000 && b > 0xffff && ft.candidate.Some? &&
                  ft.candidate.value < v <= 0xffff)
  {
  }

  /** And the baseline moves to a number that is first, ahead or a restart, and stays otherwise. */
  lemma FtBaselineMoves(values: seq<U32>, i: nat)
    requires i < |values|
    ensures var kind := FtKindAt(UNSEEN, values, i);
            FtRun(UNSEEN, values[..i + 1]).last ==
            if kind == FtFirst || kind == Forward || kind == Restart then Some(values[i])
            else FtRun(UNSEEN, values[..i]).last
  {
    FtRunSnoc(UNSEEN, values, i);
  }

  // What is counted for one more number of a span.

  /** The first number is received. Then a number that repeats the highest one is a duplicate,
      one behind it came late, and one ahead of it is received with the numbers between lost. */
  lemma TallyMoves(span: seq<U32>, value: U32)
    ensures var was, now := SpanTally(span), SpanTally(span + [value]);
            if span == [] then now == Tally(1, 0, 0, 0)
            else
              var high, t := Highest(Lift(span)), Nearest(Highest(Lift(span)), value);
              now == Tally(was.received + 1, was.lost + (if t > high then t - high - 1 else 0),
                           was.duplicates + (if t == high then 1 else 0), was.late + (if t < high then 1 else 0))
  {
    SpanTallySnoc(span, value);
    if span != [] {
      KindIsOrder(span, value);
    }
  }
}
