/** PlotAggregator: streaming first, lowest, highest and last sample of the open interval. */
module PlotAggregator {
  import opened Wrappers
  import opened Words
  import opened PlotIntervals
  import Sequences

  datatype Candidate = Candidate(host: int, mono: int, value: int, index: nat)

  datatype AxisCandidates = AxisCandidates(first: Candidate, minimum: Candidate, maximum: Candidate, last: Candidate)

  predicate Precedes(left: Candidate, right: Candidate) {
    if left.mono != right.mono then left.mono < right.mono else left.index < right.index
  }

  /** A signed 64-bit value read as unsigned. */
  function ToUnsigned(x: int): Word
    requires I64(x)
  {
    if x < 0 then x + WORD else x
  }

  /** The unsigned difference of two signed times in order is the exact elapsed time. */
  lemma ElapsedIsExact(start: int, now: int)
    requires I64(start) && I64(now) && start <= now
    ensures Minus(ToUnsigned(now), ToUnsigned(start)) == now - start
  {
  }

  function CandidateAt(samples: seq<TimedSample>, base: nat, axis: AxisIndex, k: nat): Candidate
    requires k < |samples|
  {
    Candidate(samples[k].host, samples[k].mono, AxisValue(samples[k], axis), base + k)
  }

  /** Candidate c is sample k of the interval. */
  predicate At(samples: seq<TimedSample>, base: nat, axis: AxisIndex, c: Candidate, k: nat)
  {
    k < |samples| && c == CandidateAt(samples, base, axis, k)
  }

  ghost predicate Tracks(c: AxisCandidates, samples: seq<TimedSample>, base: nat, axis: AxisIndex)
  {
    At(samples, base, axis, c.first, 0) && At(samples, base, axis, c.last, |samples| - 1) &&
    (exists k: nat :: At(samples, base, axis, c.minimum, k) && Lowest(samples, axis, k)) &&
    (exists k: nat :: At(samples, base, axis, c.maximum, k) && Highest(samples, axis, k))
  }

  lemma LowestStep(samples: seq<TimedSample>, s: TimedSample, axis: AxisIndex, k: nat)
    requires Lowest(samples, axis, k)
    ensures AxisValue(s, axis) < AxisValue(samples[k], axis) ==> Lowest(samples + [s], axis, |samples|)
    ensures AxisValue(s, axis) >= AxisValue(samples[k], axis) ==> Lowest(samples + [s], axis, k)
  {
  }

  lemma HighestStep(samples: seq<TimedSample>, s: TimedSample, axis: AxisIndex, k: nat)
    requires Highest(samples, axis, k)
    ensures AxisValue(s, axis) > AxisValue(samples[k], axis) ==> Highest(samples + [s], axis, |samples|)
    ensures AxisValue(s, axis) <= AxisValue(samples[k], axis) ==> Highest(samples + [s], axis, k)
  {
  }

  function Seeded(c: Candidate): AxisCandidates { AxisCandidates(c, c, c, c) }

  function Updated(a: AxisCandidates, c: Candidate): AxisCandidates {
    AxisCandidates(a.first,
                   if c.value < a.minimum.value then c else a.minimum,
                   if c.value > a.maximum.value then c else a.maximum,
                   c)
  }

  lemma SeedTracks(s: TimedSample, base: nat, axis: AxisIndex)
    ensures Tracks(Seeded(CandidateAt([s], base, axis, 0)), [s], base, axis)
  {
    assert Lowest([s], axis, 0) && Highest([s], axis, 0);
    assert At([s], base, axis, CandidateAt([s], base, axis, 0), 0);
  }

  lemma UpdateTracks(a: AxisCandidates, samples: seq<TimedSample>, s: TimedSample, base: nat, axis: AxisIndex)
    requires Tracks(a, samples, base, axis)
    ensures Tracks(Updated(a, CandidateAt(samples + [s], base, axis, |samples|)), samples + [s], base, axis)
  {
    var all := samples + [s];
    var c := CandidateAt(all, base, axis, |samples|);
    var u := Updated(a, c);
    var i: nat :| At(samples, base, axis, a.minimum, i) && Lowest(samples, axis, i);
    var j: nat :| At(samples, base, axis, a.maximum, j) && Highest(samples, axis, j);
    LowestStep(samples, s, axis, i);
    HighestStep(samples, s, axis, j);
    assert At(all, base, axis, a.minimum, i) && At(all, base, axis, a.maximum, j);
    assert At(all, base, axis, c, |samples|);
    assert Lowest(all, axis, i) || Lowest(all, axis, |samples|);
    assert Highest(all, axis, j) || Highest(all, axis, |samples|);
  }

  lemma LastOf(was: seq<TimedSample>, s: TimedSample)
    requires was != [] && Ordered(was) && s.mono >= was[|was| - 1].mono
    ensures Ordered(was + [s]) && (was + [s])[|was + [s]| - 1] == s && (was + [s])[0] == was[0]
  {
  }

  lemma AddTracks(a: AxisCandidates, c: Candidate, was: seq<TimedSample>, s: TimedSample, all: seq<TimedSample>,
                  base: nat, axis: AxisIndex)
    requires Tracks(a, was, base, axis) && all == was + [s]
    requires c == Candidate(s.host, s.mono, AxisValue(s, axis), base + |was|)
    ensures Tracks(Updated(a, c), all, base, axis)
  {
    UpdateTracks(a, was, s, base, axis);
  }

  // The insertion sort of four candidates.

  predicate SortedUpTo(c: seq<Candidate>, n: nat)
    requires n <= |c|
  {
    forall i, j :: 0 <= i < j < n ==> !Precedes(c[j], c[i])
  }

  lemma ShiftKeepsBag(c: seq<Candidate>, current: Candidate, i: nat)
    requires 0 < i < |c|
    ensures multiset(c[i := c[i - 1]][i - 1 := current]) == multiset(c[i := current])
  {
  }

  method SortCandidates(selected: array<Candidate>)
    modifies selected
    ensures SortedUpTo(selected[..], selected.Length)
    ensures multiset(selected[..]) == multiset(old(selected[..]))
  {
    if selected.Length == 0 {
      return;
    }
    for index := 1 to selected.Length
      invariant SortedUpTo(selected[..], index)
      invariant multiset(selected[..]) == multiset(old(selected[..]))
    {
      InsertCandidate(selected, index);
    }
  }

  /** The first n places are sorted if place `hole` is skipped, and current belongs at or before it. */
  predicate Hole(c: seq<Candidate>, n: nat, hole: nat, current: Candidate)
    requires hole < n <= |c|
  {
    (forall i, j :: 0 <= i < j < n && i != hole && j != hole ==> !Precedes(c[j], c[i])) &&
    forall i :: hole < i < n ==> !Precedes(c[i], current)
  }

  lemma HoleMoves(c: seq<Candidate>, n: nat, hole: nat, current: Candidate)
    requires 0 < hole < n <= |c| && Hole(c, n, hole, current) && Precedes(current, c[hole - 1])
    ensures Hole(c[hole := c[hole - 1]], n, hole - 1, current)
  {
  }

  lemma HoleCloses(c: seq<Candidate>, n: nat, hole: nat, current: Candidate)
    requires hole < n <= |c| && Hole(c, n, hole, current)
    requires hole > 0 ==> !Precedes(current, c[hole - 1])
    ensures SortedUpTo(c[hole := current], n)
  {
  }

  /** The state of an insertion: current is out of its place, and everything is there with it. */
  predicate Shifting(c: seq<Candidate>, bag: multiset<Candidate>, n: nat, hole: nat, current: Candidate)
    requires hole < n <= |c|
  {
    Hole(c, n, hole, current) && multiset(c[hole := current]) == bag
  }

  lemma ShiftStarts(c: seq<Candidate>, index: nat)
    requires index < |c| && SortedUpTo(c, index)
    ensures Shifting(c, multiset(c), index + 1, index, c[index])
  {
    assert c[index := c[index]] == c;
  }

  lemma ShiftMoves(c: seq<Candidate>, bag: multiset<Candidate>, n: nat, hole: nat, current: Candidate)
    requires 0 < hole < n <= |c| && Shifting(c, bag, n, hole, current) && Precedes(current, c[hole - 1])
    ensures Shifting(c[hole := c[hole - 1]], bag, n, hole - 1, current)
  {
    ShiftKeepsBag(c, current, hole);
    HoleMoves(c, n, hole, current);
  }

  method ShiftOne(selected: array<Candidate>, hole: nat, ghost bag: multiset<Candidate>, ghost n: nat,
                  ghost current: Candidate)
    requires 0 < hole < n <= selected.Length && Shifting(selected[..], bag, n, hole, current)
    requires Precedes(current, selected[hole - 1])
    modifies selected
    ensures Shifting(selected[..], bag, n, hole - 1, current)
  {
    ghost var was := selected[..];
    ShiftMoves(was, bag, n, hole, current);
    selected[hole] := selected[hole - 1];
    assert selected[..] == was[hole := was[hole - 1]];
  }

  method InsertCandidate(selected: array<Candidate>, index: nat)
    requires 0 < index < selected.Length && SortedUpTo(selected[..], index)
    modifies selected
    ensures SortedUpTo(selected[..], index + 1)
    ensures multiset(selected[..]) == multiset(old(selected[..]))
  {
    ghost var bag := multiset(selected[..]);
    var current := selected[index];
    var insertion := index;
    ShiftStarts(selected[..], index);
    while insertion > 0 && Precedes(current, selected[insertion - 1])
      invariant 0 <= insertion <= index
      invariant Shifting(selected[..], bag, index + 1, insertion, current)
    {
      ShiftOne(selected, insertion, bag, index + 1, current);
      insertion := insertion - 1;
    }
    ghost var was := selected[..];
    HoleCloses(was, index + 1, insertion, current);
    selected[insertion] := current;
    assert selected[..] == was[insertion := current];
  }

  // Deduplication.

  predicate AllAt(c: seq<Candidate>, samples: seq<TimedSample>, base: nat, axis: AxisIndex)
  {
    forall i :: 0 <= i < |c| ==> c[i].index >= base && At(samples, base, axis, c[i], c[i].index - base)
  }

  /** Sorted candidates of one interval are sorted by sample index. */
  lemma SortedByIndex(c: seq<Candidate>, samples: seq<TimedSample>, base: nat, axis: AxisIndex, i: nat, j: nat)
    requires AllAt(c, samples, base, axis) && SortedUpTo(c, |c|) && Ordered(samples)
    requires i < j < |c|
    ensures c[i].index <= c[j].index
  {
  }

  method Contains(indices: seq<nat>, index: nat) returns (duplicate: bool)
    ensures duplicate <==> index in indices
  {
    duplicate := false;
    for i := 0 to |indices|
      invariant !duplicate && index !in indices[..i]
    {
      if indices[i] == index {
        return true;
      }
    }
  }

  predicate ByIndex(c: seq<Candidate>) {
    forall i, j :: 0 <= i < j < |c| ==> c[i].index < c[j].index
  }

  function Shown(picked: seq<Candidate>): seq<PlotPoint> {
    seq(|picked|, i requires 0 <= i < |picked| => PlotPoint(picked[i].host, picked[i].value))
  }

  function Indices(picked: seq<Candidate>): seq<nat> {
    seq(|picked|, i requires 0 <= i < |picked| => picked[i].index)
  }

  lemma LastIsGreatest(c: seq<Candidate>, x: Candidate)
    requires ByIndex(c) && x in c
    ensures x == c[|c| - 1] || (x.index < c[|c| - 1].index && x in c[..|c| - 1])
  {
    assert c == c[..|c| - 1] + [c[|c| - 1]];
  }

  /** Strictly sorted lists of the same candidates are equal. */
  lemma {:induction false} ByIndexUnique(a: seq<Candidate>, b: seq<Candidate>)
    requires ByIndex(a) && ByIndex(b) && Sequences.SameMembers(a, b)
    ensures a == b
    decreases |a|
  {
    assert (a != [] ==> a[|a| - 1] in a) && (b != [] ==> b[|b| - 1] in b);
    if a != [] && b != [] {
      var x, y := a[|a| - 1], b[|b| - 1];
      var c, d := a[..|a| - 1], b[..|b| - 1];
      LastIsGreatest(a, y);
      LastIsGreatest(b, x);
      assert a == c + [x] && b == d + [y];
      forall z <- c
        ensures z in d
      {
        LastIsGreatest(b, z);
      }
      forall z <- d
        ensures z in c
      {
        LastIsGreatest(a, z);
      }
      ByIndexUnique(c, d);
    }
  }

  /** What has been picked after the candidates in seen: each of them once, in order. */
  ghost predicate Picked(picked: seq<Candidate>, seen: seq<Candidate>) {
    ByIndex(picked) && Sequences.SameMembers(picked, seen) && |picked| <= |seen|
  }

  predicate Distinct(c: seq<Candidate>) {
    forall x <- c, y <- c :: x.index == y.index ==> x == y
  }

  lemma PickSkips(picked: seq<Candidate>, c: seq<Candidate>, n: nat)
    requires n < |c| && Distinct(c) && Picked(picked, c[..n]) && c[n].index in Indices(picked)
    ensures Picked(picked, c[..n + 1])
  {
    var j :| 0 <= j < |picked| && picked[j].index == c[n].index;
    assert picked[j] in picked && picked[j] in c[..n];
    assert c[..n + 1] == c[..n] + [c[n]];
    assert c[n] in c && picked[j] in c && picked[j] == c[n];
  }

  lemma PickAdds(picked: seq<Candidate>, c: seq<Candidate>, n: nat)
    requires n < |c| && Picked(picked, c[..n]) && c[n].index !in Indices(picked)
    requires forall i :: 0 <= i < n ==> c[i].index <= c[n].index
    ensures Picked(picked + [c[n]], c[..n + 1])
  {
    assert c[..n + 1] == c[..n] + [c[n]];
    forall j | 0 <= j < |picked|
      ensures picked[j].index < c[n].index
    {
      assert picked[j] in picked && picked[j] in c[..n];
      assert Indices(picked)[j] == picked[j].index;
    }
  }

  lemma OneLowest(samples: seq<TimedSample>, axis: AxisIndex, i: nat, j: nat)
    requires Lowest(samples, axis, i) && Lowest(samples, axis, j)
    ensures i == j
  {
    var v, w := AxisValue(samples[i], axis), AxisValue(samples[j], axis);
    assert v == w;
  }

  lemma OneHighest(samples: seq<TimedSample>, axis: AxisIndex, i: nat, j: nat)
    requires Highest(samples, axis, i) && Highest(samples, axis, j)
    ensures i == j
  {
    var v, w := AxisValue(samples[i], axis), AxisValue(samples[j], axis);
    assert v == w;
  }

  function CandidatesAt(samples: seq<TimedSample>, base: nat, axis: AxisIndex, keys: seq<nat>): seq<Candidate>
    requires Under(keys, |samples|)
  {
    seq(|keys|, i requires 0 <= i < |keys| => CandidateAt(samples, base, axis, keys[i]))
  }

  ghost predicate Four(a: AxisCandidates, c: seq<Candidate>) {
    forall x: Candidate :: x in c <==> x == a.first || x == a.minimum || x == a.maximum || x == a.last
  }

  lemma KeyIsCandidate(a: AxisCandidates, samples: seq<TimedSample>, base: nat, axis: AxisIndex, k: nat)
    requires Tracks(a, samples, base, axis) && k < |samples|
    ensures Key(samples, axis, k) <==>
            CandidateAt(samples, base, axis, k) in {a.first, a.minimum, a.maximum, a.last}
  {
    var lo: nat :| At(samples, base, axis, a.minimum, lo) && Lowest(samples, axis, lo);
    var hi: nat :| At(samples, base, axis, a.maximum, hi) && Highest(samples, axis, hi);
    if Lowest(samples, axis, k) {
      OneLowest(samples, axis, k, lo);
    }
    if Highest(samples, axis, k) {
      OneHighest(samples, axis, k, hi);
    }
  }

  /** The four candidates, each once and in order, are exactly the key samples of the interval. */
  lemma PickedAreKeys(a: AxisCandidates, picked: seq<Candidate>, c: seq<Candidate>, samples: seq<TimedSample>,
                      base: nat, axis: AxisIndex)
    requires Tracks(a, samples, base, axis) && Four(a, c) && Picked(picked, c)
    ensures Shown(picked) == AxisPoints(samples, axis)
  {
    var keys := Keys(samples, axis, |samples|);
    KeysAre(samples, axis, |samples|);
    var all := CandidatesAt(samples, base, axis, keys);
    forall x <- all
      ensures x in picked
    {
      var i :| 0 <= i < |keys| && x == all[i];
      assert keys[i] in keys;
      KeyIsCandidate(a, samples, base, axis, keys[i]);
    }
    forall x <- picked
      ensures x in all
    {
      var k := TracksAt(a, samples, base, axis, x);
      KeyIsCandidate(a, samples, base, axis, k);
      var i :| 0 <= i < |keys| && keys[i] == k;
      assert all[i] == x;
    }
    ByIndexUnique(picked, all);
  }

  lemma TracksAt(a: AxisCandidates, samples: seq<TimedSample>, base: nat, axis: AxisIndex, x: Candidate) returns (k: nat)
    requires Tracks(a, samples, base, axis) && x in {a.first, a.minimum, a.maximum, a.last}
    ensures At(samples, base, axis, x, k) && x.index == base + k
  {
    k :| At(samples, base, axis, x, k);
  }

  lemma TracksAllAt(a: AxisCandidates, c: seq<Candidate>, samples: seq<TimedSample>, base: nat, axis: AxisIndex)
    requires Tracks(a, samples, base, axis) && Four(a, c)
    ensures AllAt(c, samples, base, axis) && Distinct(c)
  {
    forall i | 0 <= i < |c|
      ensures c[i].index >= base && At(samples, base, axis, c[i], c[i].index - base)
    {
      assert c[i] in c;
      var k := TracksAt(a, samples, base, axis, c[i]);
    }
  }

  predicate IndexSorted(c: seq<Candidate>) {
    forall i, j :: 0 <= i < j < |c| ==> c[i].index <= c[j].index
  }

  /** Emission of sorted candidates without repeating a sample. */
  method Emit(selected: array<Candidate>) returns (points: seq<PlotPoint>, ghost picked: seq<Candidate>)
    requires Distinct(selected[..]) && IndexSorted(selected[..])
    ensures Picked(picked, selected[..]) && points == Shown(picked)
  {
    points, picked := [], [];
    var emitted: seq<nat> := [];
    for i := 0 to selected.Length
      invariant Picked(picked, selected[..i]) && points == Shown(picked) && emitted == Indices(picked)
    {
      var candidate := selected[i];
      ghost var c := selected[..];
      assert c[..i] == selected[..i] && c[..i + 1] == selected[..i + 1];
      var duplicate := Contains(emitted, candidate.index);
      if duplicate {
        PickSkips(picked, c, i);
        continue;
      }
      PickAdds(picked, c, i);
      points := points + [PlotPoint(candidate.host, candidate.value)];
      emitted := emitted + [candidate.index];
      picked := picked + [candidate];
    }
    assert selected[..selected.Length] == selected[..];
  }

  /** The points one axis of a batch shows. */
  method AxisBatch(a: AxisCandidates, ghost samples: seq<TimedSample>, ghost base: nat, ghost axis: AxisIndex)
    returns (points: seq<PlotPoint>)
    requires Tracks(a, samples, base, axis) && Ordered(samples)
    ensures points == AxisPoints(samples, axis) && |points| <= 4
  {
    var selected := new Candidate[4] [a.first, a.minimum, a.maximum, a.last];
    ghost var four := selected[..];
    assert four == [a.first, a.minimum, a.maximum, a.last];
    SortCandidates(selected);
    SortedFour(a, selected[..], four, samples, base, axis);
    ghost var picked;
    points, picked := Emit(selected);
    PickedAreKeys(a, picked, selected[..], samples, base, axis);
  }

  lemma SortedFour(a: AxisCandidates, c: seq<Candidate>, four: seq<Candidate>, samples: seq<TimedSample>,
                   base: nat, axis: AxisIndex)
    requires Tracks(a, samples, base, axis) && Ordered(samples)
    requires four == [a.first, a.minimum, a.maximum, a.last]
    requires multiset(c) == multiset(four) && SortedUpTo(c, |c|)
    ensures Four(a, c) && Distinct(c) && IndexSorted(c)
  {
    SameBagSameMembers(c, four);
    TracksAllAt(a, c, samples, base, axis);
    forall i, j | 0 <= i < j < |c|
      ensures c[i].index <= c[j].index
    {
      SortedByIndex(c, samples, base, axis, i, j);
    }
  }

  lemma SameBagSameMembers(c: seq<Candidate>, d: seq<Candidate>)
    requires multiset(c) == multiset(d)
    ensures forall x: Candidate :: x in c <==> x in d
  {
    forall x: Candidate
      ensures x in c <==> x in d
    {
      assert x in multiset(c) <==> x in multiset(d);
    }
  }

  class Aggregator {
    const interval: int
    const candidates: array<AxisCandidates>
    var intervalStart: int
    var lastMono: int
    var revision: int
    var nextIndex: nat
    var hasInterval: bool
    ghost var open: Interval

    ghost predicate Valid()
      reads this, candidates
    {
      0 < interval < 0x8000_0000_0000_0000 && candidates.Length == AXES &&
      (hasInterval <==> open.samples != []) && nextIndex == open.base + |open.samples| &&
      Ordered(open.samples) &&
      (hasInterval ==>
         intervalStart == open.samples[0].mono && lastMono == open.samples[|open.samples| - 1].mono &&
         revision == open.samples[0].revision &&
         forall axis: AxisIndex :: Tracks(candidates[axis], open.samples, open.base, axis))
    }

    constructor (length: int)
      requires 0 < length < 0x8000_0000_0000_0000
      ensures Valid() && fresh(candidates) && interval == length && open == Interval([], 0)
    {
      interval := length;
      var none := Candidate(0, 0, 0, 0);
      candidates := new AxisCandidates[AXES](i => Seeded(none));
      intervalStart, lastMono, revision, nextIndex, hasInterval := 0, 0, 0, 0, false;
      open := Interval([], 0);
    }

    method Reset()
      requires Valid()
      modifies this
      ensures Valid() && open == Interval([], 0)
    {
      hasInterval := false;
      intervalStart, lastMono, nextIndex, revision := 0, 0, 0, 0;
      open := Interval([], 0);
    }

    method SeedInterval(s: TimedSample)
      requires 0 < interval < 0x8000_0000_0000_0000 && candidates.Length == AXES
      modifies this, candidates
      ensures Valid() && open == Interval([s], old(nextIndex))
    {
      hasInterval := true;
      intervalStart, lastMono, revision := s.mono, s.mono, s.revision;
      open := Interval([s], nextIndex);
      for axis := 0 to AXES
        invariant candidates.Length == AXES
        invariant forall a: AxisIndex :: a < axis ==> Tracks(candidates[a], [s], open.base, a)
        modifies candidates
      {
        candidates[axis] := Seeded(Candidate(s.host, s.mono, AxisValue(s, axis), nextIndex));
        SeedTracks(s, open.base, axis);
      }
      nextIndex := nextIndex + 1;
    }

    method UpdateCandidates(s: TimedSample, ghost was: seq<TimedSample>, ghost base: nat)
      requires candidates.Length == AXES && nextIndex == base + |was|
      requires forall a: AxisIndex :: Tracks(candidates[a], was, base, a)
      modifies candidates
      ensures forall a: AxisIndex :: Tracks(candidates[a], was + [s], base, a)
    {
      ghost var all := was + [s];
      for axis := 0 to AXES
        invariant forall a: AxisIndex :: a < axis ==> Tracks(candidates[a], all, base, a)
        invariant forall a: AxisIndex :: axis <= a ==> Tracks(candidates[a], was, base, a)
      {
        var candidate := Candidate(s.host, s.mono, AxisValue(s, axis), nextIndex);
        AddTracks(candidates[axis], candidate, was, s, all, base, axis);
        candidates[axis] := Updated(candidates[axis], candidate);
      }
    }

    method AddToInterval(s: TimedSample)
      requires Valid() && hasInterval && s.mono >= lastMono && s.revision == revision
      modifies this, candidates
      ensures Valid() && open == Interval(old(open).samples + [s], old(open).base)
    {
      LastOf(open.samples, s);
      UpdateCandidates(s, open.samples, open.base);
      lastMono := s.mono;
      open := Interval(open.samples + [s], open.base);
      nextIndex := nextIndex + 1;
    }

    method MakeBatch() returns (batch: PlotBatch)
      requires Valid() && hasInterval
      ensures batch == BatchOf(open.samples) && forall points <- batch :: |points| <= 4
    {
      batch := [];
      for axis := 0 to AXES
        invariant |batch| == axis
        invariant forall a: AxisIndex :: a < axis ==> batch[a] == AxisPoints(open.samples, a) && |batch[a]| <= 4
      {
        var points := AxisBatch(candidates[axis], open.samples, open.base, axis);
        batch := batch + [points];
      }
    }

    method Push(s: TimedSample) returns (batch: Option<PlotBatch>)
      requires Valid()
      modifies this, candidates
      ensures Valid()
      ensures var p := PushSample(old(open), s, interval);
              open == p.next &&
              batch == if p.closed.None? then None else Some(BatchOf(p.closed.value))
    {
      if !hasInterval {
        SeedInterval(s);
        return None;
      }
      if s.revision != revision {
        Reset();
        SeedInterval(s);
        return None;
      }
      if s.mono < lastMono {
        return None;
      }
      var elapsed := Minus(ToUnsigned(s.mono), ToUnsigned(intervalStart));
      ElapsedIsExact(intervalStart, s.mono);
      if elapsed >= interval {
        var closed := MakeBatch();
        SeedInterval(s);
        return Some(closed);
      }
      AddToInterval(s);
      return None;
    }
  }
}
