/** Filtering and order-preserving selection on sequences. */
module Sequences {

  function Filter<T>(s: seq<T>, keep: T -> bool): (r: seq<T>)
    ensures |r| <= |s|
  {
    if s == [] then [] else (if keep(s[0]) then [s[0]] else []) + Filter(s[1..], keep)
  }

  lemma {:induction false} FilterMembers<T>(s: seq<T>, keep: T -> bool)
    ensures forall x <- Filter(s, keep) :: x in s && keep(x)
    ensures forall x <- s :: keep(x) ==> x in Filter(s, keep)
    decreases |s|
  {
    if s != [] {
      assert s == [s[0]] + s[1..];
      FilterMembers(s[1..], keep);
    }
  }

  predicate SameMembers<T(==)>(a: seq<T>, b: seq<T>) {
    (forall x <- a :: x in b) && (forall x <- b :: x in a)
  }

  function One<T>(x: T, keep: T -> bool): seq<T> {
    if keep(x) then [x] else []
  }

  lemma FilterHead<T>(s: seq<T>, keep: T -> bool)
    requires s != []
    ensures Filter(s, keep) == One(s[0], keep) + Filter(s[1..], keep)
  {
  }

  lemma Associate<T>(a: seq<T>, b: seq<T>, c: seq<T>)
    ensures a + (b + c) == a + b + c
  {
  }

  lemma {:induction false} FilterConcat<T>(a: seq<T>, b: seq<T>, keep: T -> bool)
    ensures Filter(a + b, keep) == Filter(a, keep) + Filter(b, keep)
    decreases |a|
  {
    if a == [] {
      assert a + b == b;
    } else {
      assert (a + b)[0] == a[0] && (a + b)[1..] == a[1..] + b;
      FilterConcat(a[1..], b, keep);
      FilterHead(a, keep);
      FilterHead(a + b, keep);
      Associate(One(a[0], keep), Filter(a[1..], keep), Filter(b, keep));
    }
  }

  function RemoveAt<T>(s: seq<T>, i: nat): seq<T>
    requires i < |s|
  {
    s[..i] + s[i + 1..]
  }

  lemma FilterSplit<T>(s: seq<T>, i: nat, keep: T -> bool)
    requires i < |s|
    ensures Filter(s, keep) == Filter(s[..i], keep) + One(s[i], keep) + Filter(s[i + 1..], keep)
  {
    assert s == s[..i] + s[i..];
    FilterConcat(s[..i], s[i..], keep);
    assert s[i..][0] == s[i] && s[i..][1..] == s[i + 1..];
    FilterHead(s[i..], keep);
    Associate(Filter(s[..i], keep), One(s[i], keep), Filter(s[i + 1..], keep));
  }

  lemma FilterUpdate<T>(s: seq<T>, i: nat, x: T, keep: T -> bool)
    requires i < |s|
    ensures Filter(s[i := x], keep) ==
            Filter(s[..i], keep) + One(x, keep) + Filter(s[i + 1..], keep)
  {
    var t := s[i := x];
    assert t[..i] == s[..i] && t[i + 1..] == s[i + 1..];
    FilterSplit(t, i, keep);
  }

  lemma {:induction false} FilterNone<T>(s: seq<T>, keep: T -> bool)
    requires forall x <- s :: !keep(x)
    ensures Filter(s, keep) == []
    decreases |s|
  {
    if s != [] {
      FilterNone(s[1..], keep);
    }
  }

  /** a can be obtained from b by deleting elements. */
  ghost predicate Subsequence<T>(a: seq<T>, b: seq<T>) {
    a == [] ||
    (b != [] &&
     ((a[|a| - 1] == b[|b| - 1] && Subsequence(a[..|a| - 1], b[..|b| - 1])) ||
      Subsequence(a, b[..|b| - 1])))
  }

  lemma SubsequenceSnoc<T>(a: seq<T>, b: seq<T>, x: T)
    requires Subsequence(a, b)
    ensures Subsequence(a + [x], b + [x])
    ensures Subsequence(a, b + [x])
  {
    assert (a + [x])[..|a|] == a && (b + [x])[..|b|] == b;
  }

  lemma {:induction false} SubsequenceShorter<T>(a: seq<T>, b: seq<T>)
    requires a != [] && Subsequence(a, b)
    ensures Subsequence(a[..|a| - 1], b)
    decreases |b|
  {
    var b' := b[..|b| - 1];
    if a[|a| - 1] == b[|b| - 1] && Subsequence(a[..|a| - 1], b') {
    } else {
      SubsequenceShorter(a, b');
    }
  }

  /** The index of the first element satisfying the predicate, or the length. */
  function First<T>(s: seq<T>, p: T -> bool): (i: nat)
    ensures i <= |s|
    ensures i < |s| ==> p(s[i])
    ensures forall j :: 0 <= j < i ==> !p(s[j])
  {
    if s == [] || p(s[0]) then 0 else 1 + First(s[1..], p)
  }

  lemma {:induction false} FilterAll<T>(s: seq<T>, keep: T -> bool)
    requires forall x <- s :: keep(x)
    ensures Filter(s, keep) == s
    decreases |s|
  {
    if s != [] {
      FilterAll(s[1..], keep);
    }
  }

  lemma FilterCons<T>(x: T, s: seq<T>, keep: T -> bool)
    ensures Filter([x] + s, keep) == One(x, keep) + Filter(s, keep)
  {
    assert ([x] + s)[1..] == s;
  }

  lemma FilterSnoc<T>(s: seq<T>, x: T, keep: T -> bool)
    ensures Filter(s + [x], keep) == Filter(s, keep) + One(x, keep)
  {
    FilterConcat(s, [x], keep);
    assert [x][1..] == [];
  }

  lemma {:induction false} FirstIs<T>(s: seq<T>, p: T -> bool, i: nat)
    requires i < |s| && p(s[i]) && forall j :: 0 <= j < i ==> !p(s[j])
    ensures First(s, p) == i
    decreases i
  {
    if i > 0 {
      FirstIs(s[1..], p, i - 1);
    }
  }

  lemma RemoveAtIndex<T>(s: seq<T>, r: nat)
    requires r < |s|
    ensures |RemoveAt(s, r)| == |s| - 1
    ensures forall k :: 0 <= k < r ==> RemoveAt(s, r)[k] == s[k]
    ensures forall k :: r <= k < |s| - 1 ==> RemoveAt(s, r)[k] == s[k + 1]
  {
  }

  /** Where the element at i is after another one is removed. */
  function MovedTo(i: nat, r: nat): int { if r < i then i - 1 else i }

  lemma MatchMoves<T>(s: seq<T>, r: nat, p: T -> bool, i: nat)
    requires r < |s| && i < |s| && r != i && p(s[i]) && forall k :: 0 <= k < i ==> !p(s[k])
    ensures MovedTo(i, r) < |RemoveAt(s, r)| && p(RemoveAt(s, r)[MovedTo(i, r)])
    ensures forall k :: 0 <= k < MovedTo(i, r) ==> !p(RemoveAt(s, r)[k])
  {
    RemoveAtIndex(s, r);
  }

  /** Removing another element moves the first match by at most one place, never back. */
  lemma FirstAfterRemove<T>(s: seq<T>, r: nat, p: T -> bool)
    requires r < |s| && First(s, p) < |s| && r != First(s, p)
    ensures First(RemoveAt(s, r), p) == MovedTo(First(s, p), r)
  {
    MatchMoves(s, r, p, First(s, p));
    FirstIs(RemoveAt(s, r), p, MovedTo(First(s, p), r));
  }

  predicate Suffix<T(==)>(a: seq<T>, b: seq<T>) {
    |a| <= |b| && a == b[|b| - |a|..]
  }

  lemma {:induction false} FilterWithin<T>(s: seq<T>, keep: T -> bool, view: T -> bool)
    requires forall x <- s :: view(x) ==> keep(x)
    ensures Filter(Filter(s, keep), view) == Filter(s, view)
    decreases |s|
  {
    if s != [] {
      FilterWithin(s[1..], keep, view);
      FilterCons(s[0], Filter(s[1..], keep), view);
      if !keep(s[0]) {
        assert Filter(s, keep) == Filter(s[1..], keep);
        assert Filter(s, view) == Filter(s[1..], view);
      }
    }
  }

  lemma FilterOutside<T>(s: seq<T>, keep: T -> bool, view: T -> bool)
    requires forall x <- s :: view(x) ==> !keep(x)
    ensures Filter(Filter(s, keep), view) == []
  {
    FilterMembers(s, keep);
    FilterNone(Filter(s, keep), view);
  }

  /** Filtering keeps a kept first match, no further back than before. */
  lemma {:induction false} FirstAfterFilter<T>(s: seq<T>, keep: T -> bool, p: T -> bool)
    requires First(s, p) < |s| && keep(s[First(s, p)])
    ensures First(Filter(s, keep), p) < |Filter(s, keep)|
    ensures First(Filter(s, keep), p) <= First(s, p)
    decreases |s|
  {
    if !p(s[0]) {
      FirstAfterFilter(s[1..], keep, p);
      if keep(s[0]) {
        assert Filter(s, keep)[1..] == Filter(s[1..], keep);
      } else {
        assert Filter(s, keep) == Filter(s[1..], keep);
      }
    }
  }
}
