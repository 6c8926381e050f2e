/** Every run of the session event queue: conservation of errors, order of snapshots, and
    delivery in time. */
module SessionEventRuns {
  import opened Wrappers
  import opened Sequences
  import opened SessionEventQueue

  datatype Op = Pushing(event: Event) | Popping | Purging(generation: nat) | Retaining(generation: nat) | Clearing

  /** A queue together with everything that has gone through it. */
  datatype History = History(
    queue: Queue,
    pushed: seq<Event>,
    popped: seq<Event>,
    droppedErrors: seq<Event>,
    discarded: seq<Event>)

  function Keeps(op: Op): Event -> bool {
    match op
    case Purging(generation) => NotMeasuring(generation)
    case Retaining(generation) => InGeneration(generation)
    case _ => (e: Event) => false
  }

  function Next(h: History, op: Op): History {
    match op
    case Pushing(e) =>
      h.(queue := Pushed(h.queue, e),
         pushed := h.pushed + [Stored(h.queue, e)],
         droppedErrors := h.droppedErrors + DroppedBy(h.queue, e))
    case Popping =>
      if h.queue.events == [] then h
      else h.(queue := h.queue.(events := h.queue.events[1..]), popped := h.popped + [h.queue.events[0]])
    case _ =>
      h.(queue := h.queue.(events := Filter(h.queue.events, Keeps(op))),
         discarded := h.discarded + Taken(h.queue.events, op))
  }

  predicate Drops(op: Op) { op.Purging? || op.Retaining? || op.Clearing? }

  /** Everything an operation that discards takes away. */
  function Taken(events: seq<Event>, op: Op): seq<Event> {
    Filter(events, (e: Event) => !Keeps(op)(e))
  }

  // What each operation does to the errors, seen through a view that admits only errors.

  ghost predicate ErrorView(view: Event -> bool) {
    forall e :: view(e) ==> e.IsError()
  }

  /** The dropped error is the first of every error view that admits it. */
  lemma DropOldestView(q: Queue, view: Event -> bool)
    requires ErrorView(view) && First(q.events, Errors) < |q.events|
    ensures Filter(q.events, view) == Filter(OldestError(q.events), view) + Filter(DropOldest(q).events, view)
  {
    var i := First(q.events, Errors);
    FilterSplit(q.events, i, view);
    FilterConcat(q.events[..i], q.events[i + 1..], view);
    FilterNone(q.events[..i], view);
    FilterCons(q.events[i], [], view);
    assert [q.events[i]] + [] == [q.events[i]];
  }

  lemma EvictView(events: seq<Event>, view: Event -> bool)
    requires ErrorView(view)
    ensures Filter(Evict(events), view) == Filter(events, view)
  {
    var i := First(events, Snapshots);
    if i < |events| {
      FilterSplit(events, i, view);
      FilterConcat(events[..i], events[i + 1..], view);
    }
  }

  ghost predicate ViewMoves(q: Queue, e: Event, view: Event -> bool, rest: seq<Event>) {
    && Filter(q.events, view) == Filter(DroppedBy(q, e), view) + rest
    && Filter(Pushed(q, e).events, view) == rest + One(Stored(q, e), view)
  }

  /** Pushing takes the dropped error from the front of the view and adds at its end. */
  lemma PushErrorView(q: Queue, e: Event, view: Event -> bool)
    requires Valid(q) && ErrorView(view)
    ensures exists rest :: ViewMoves(q, e, view, rest)
    ensures |DroppedBy(q, e)| == Pushed(q, e).dropped - q.dropped
    ensures Filter(DroppedBy(q, e), Errors) == DroppedBy(q, e)
  {
    var v := Filter(q.events, view);
    if Coalesces(q, e) {
      var i := Existing(q, e);
      FilterUpdate(q.events, i, e, view);
      FilterSplit(q.events, i, view);
      assert v == Filter(DroppedBy(q, e), view) + v;
      assert ViewMoves(q, e, view, v);
    } else {
      var q' := if DropsError(q, e) then DropOldest(q) else q;
      var rest := Filter(q'.events, view);
      if DropsError(q, e) {
        HasError(q.events);
        DropOldestView(q, view);
        FilterAll(OldestError(q.events), Errors);
      }
      assert v == Filter(DroppedBy(q, e), view) + rest;
      EvictView(q'.events, view);
      FilterSnoc(MakeRoom(q, e).events, Stored(q, e), view);
      assert ViewMoves(q, e, view, rest);
    }
  }

  // Conservation of errors.

  ghost predicate Balanced<T>(pushed: seq<T>, queued: seq<T>, popped: seq<T>, dropped: seq<T>, discarded: seq<T>) {
    multiset(pushed) == multiset(queued) + multiset(popped) + multiset(dropped) + multiset(discarded)
  }

  /** Every pushed error is queued, popped, dropped and counted, or discarded. */
  ghost predicate Conserved(h: History) {
    && Balanced(Filter(h.pushed, Errors), Filter(h.queue.events, Errors), Filter(h.popped, Errors),
                h.droppedErrors, Filter(h.discarded, Errors))
    && |h.droppedErrors| == h.queue.dropped
  }

  /** Of each generation, the queued errors are the latest pushed ones. */
  ghost predicate LatestErrors(h: History, generation: nat) {
    Suffix(Filter(h.queue.events, ErrorsOf(generation)), Filter(h.pushed, ErrorsOf(generation)))
  }

  lemma BalancePush<T>(
    pushed: seq<T>, queued: seq<T>, popped: seq<T>, dropped: seq<T>, discarded: seq<T>,
    first: seq<T>, rest: seq<T>, added: seq<T>)
    requires Balanced(pushed, queued, popped, dropped, discarded) && queued == first + rest
    ensures Balanced(pushed + added, rest + added, popped, dropped + first, discarded)
  {
  }

  lemma PushConserves(h: History, e: Event)
    requires Valid(h.queue) && Conserved(h)
    ensures Conserved(Next(h, Pushing(e)))
  {
    var q := h.queue;
    PushErrorView(q, e, Errors);
    FilterSnoc(h.pushed, Stored(q, e), Errors);
    var rest :| ViewMoves(q, e, Errors, rest);
    BalancePush(Filter(h.pushed, Errors), Filter(q.events, Errors), Filter(h.popped, Errors),
                h.droppedErrors, Filter(h.discarded, Errors),
                DroppedBy(q, e), rest, One(Stored(q, e), Errors));
  }

  lemma PopConserves(h: History)
    requires Valid(h.queue) && Conserved(h)
    ensures Conserved(Next(h, Popping))
  {
    if h.queue.events != [] {
      FilterSnoc(h.popped, h.queue.events[0], Errors);
    }
  }

  lemma JoinOne<T>(one: seq<T>, all: seq<T>, kept: seq<T>, taken: seq<T>)
    requires multiset(all) == multiset(kept) + multiset(taken)
    ensures multiset(one + all) == multiset(one + kept) + multiset(taken)
    ensures multiset(one + all) == multiset(kept) + multiset(one + taken)
  {
  }

  ghost predicate Splits(all: seq<Event>, kept: seq<Event>, taken: seq<Event>) {
    multiset(Filter(all, Errors)) == multiset(Filter(kept, Errors)) + multiset(Filter(taken, Errors))
  }

  lemma SplitOne(e: Event, kept: seq<Event>, taken: seq<Event>, all: seq<Event>)
    requires Splits(all, kept, taken)
    ensures Splits([e] + all, [e] + kept, taken) && Splits([e] + all, kept, [e] + taken)
  {
    FilterCons(e, all, Errors);
    FilterCons(e, kept, Errors);
    FilterCons(e, taken, Errors);
    JoinOne(One(e, Errors), Filter(all, Errors), Filter(kept, Errors), Filter(taken, Errors));
  }

  lemma SplitHead(e: Event, tail: seq<Event>, op: Op)
    ensures Keeps(op)(e) ==>
              Filter([e] + tail, Keeps(op)) == [e] + Filter(tail, Keeps(op)) &&
              Taken([e] + tail, op) == Taken(tail, op)
    ensures !Keeps(op)(e) ==>
              Filter([e] + tail, Keeps(op)) == Filter(tail, Keeps(op)) &&
              Taken([e] + tail, op) == [e] + Taken(tail, op)
  {
    FilterCons(e, tail, Keeps(op));
    FilterCons(e, tail, (e: Event) => !Keeps(op)(e));
  }

  lemma {:induction false} SplitErrors(events: seq<Event>, op: Op)
    ensures Splits(events, Filter(events, Keeps(op)), Taken(events, op))
    decreases |events|
  {
    if events != [] {
      var e, tail := events[0], events[1..];
      SplitErrors(tail, op);
      SplitHead(e, tail, op);
      SplitOne(e, Filter(tail, Keeps(op)), Taken(tail, op), tail);
      assert [e] + tail == events;
    }
  }

  lemma DiscardConserves(h: History, op: Op)
    requires Valid(h.queue) && Conserved(h) && Drops(op)
    ensures Conserved(Next(h, op))
  {
    SplitErrors(h.queue.events, op);
    FilterConcat(h.discarded, Taken(h.queue.events, op), Errors);
  }

  // The queued errors of a generation are its latest.

  lemma SuffixMoves<T>(all: seq<T>, view: seq<T>, first: seq<T>, rest: seq<T>, added: seq<T>)
    requires Suffix(view, all) && view == first + rest
    ensures Suffix(rest + added, all + added)
  {
    assert (all + added)[|all + added| - |rest + added|..] == rest + added;
  }

  lemma PushKeepsLatest(h: History, e: Event, g: nat)
    requires Valid(h.queue) && LatestErrors(h, g)
    ensures LatestErrors(Next(h, Pushing(e)), g)
  {
    var q, view := h.queue, ErrorsOf(g);
    PushErrorView(q, e, view);
    FilterSnoc(h.pushed, Stored(q, e), view);
    var rest :| ViewMoves(q, e, view, rest);
    SuffixMoves(Filter(h.pushed, view), Filter(q.events, view), Filter(DroppedBy(q, e), view), rest,
                One(Stored(q, e), view));
  }

  lemma PopKeepsLatest(h: History, g: nat)
    requires LatestErrors(h, g)
    ensures LatestErrors(Next(h, Popping), g)
  {
  }

  /** Of the errors of a generation, an operation that discards takes all or none. */
  lemma DiscardView(events: seq<Event>, op: Op, g: nat)
    requires Drops(op)
    ensures SameOrNone(Filter(events, Keeps(op)), events, ErrorsOf(g))
  {
    if op.Purging? || op == Retaining(g) {
      FilterWithin(events, Keeps(op), ErrorsOf(g));
    } else {
      FilterOutside(events, Keeps(op), ErrorsOf(g));
    }
  }

  lemma SuffixStays<T>(now: seq<T>, was: seq<T>, all: seq<T>)
    requires Suffix(was, all) && (now == was || now == [])
    ensures Suffix(now, all)
  {
  }

  lemma DiscardKeepsLatest(h: History, op: Op, g: nat)
    requires LatestErrors(h, g) && Drops(op)
    ensures LatestErrors(Next(h, op), g)
  {
    var events := h.queue.events;
    DiscardView(events, op, g);
    SuffixStays(Filter(Filter(events, Keeps(op)), ErrorsOf(g)), Filter(events, ErrorsOf(g)),
                Filter(h.pushed, ErrorsOf(g)));
  }

  // Coalescing never goes back.

  ghost predicate Newest<T>(popped: seq<T>, queued: seq<T>, pushed: seq<T>) {
    && |queued| <= 1
    && (queued != [] ==> pushed != [] && queued[0] == pushed[|pushed| - 1])
    && Subsequence(popped + queued, pushed)
  }

  /** Of each generation and kind, what has been delivered and what is queued comes from
      the pushes in order, and what is queued is the newest of them. */
  ghost predicate NewestLast(h: History, g: nat, k: Kind) {
    Newest(Filter(h.popped, SnapshotsOf(g, k)), Filter(h.queue.events, SnapshotsOf(g, k)),
           Filter(h.pushed, SnapshotsOf(g, k)))
  }

  lemma NewestAfterPush<T>(popped: seq<T>, queued: seq<T>, pushed: seq<T>, e: T)
    requires Newest(popped, queued, pushed)
    ensures Newest(popped, [], pushed) && Newest(popped, [e], pushed + [e])
  {
    assert popped + [] == popped;
    if queued != [] {
      assert (popped + queued)[..|popped + queued| - 1] == popped;
      SubsequenceShorter(popped + queued, pushed);
    } else {
      assert popped + queued == popped;
    }
    SubsequenceSnoc(popped, pushed, e);
  }

  lemma NewestAfterPop<T>(popped: seq<T>, queued: seq<T>, one: seq<T>, rest: seq<T>, pushed: seq<T>)
    requires Newest(popped, queued, pushed) && queued == one + rest
    ensures Newest(popped + one, rest, pushed)
  {
    assert popped + one + rest == popped + queued;
  }

  lemma OneSnapshot(events: seq<Event>, i: nat, g: nat, k: Kind)
    requires Distinct(events) && i < |events| && IsSnapshotOf(events[i], g, k) && !k.Error?
    ensures Filter(events[..i], SnapshotsOf(g, k)) == [] && Filter(events[i + 1..], SnapshotsOf(g, k)) == []
  {
    forall x | x in events[..i]
      ensures !IsSnapshotOf(x, g, k)
    {
      var j :| 0 <= j < i && events[j] == x;
    }
    FilterNone(events[..i], SnapshotsOf(g, k));
    forall x | x in events[i + 1..]
      ensures !IsSnapshotOf(x, g, k)
    {
      var j :| 0 <= j < |events[i + 1..]| && events[i + 1..][j] == x;
      assert events[i + 1 + j] == x;
    }
    FilterNone(events[i + 1..], SnapshotsOf(g, k));
  }

  lemma RemoveView(events: seq<Event>, i: nat, view: Event -> bool)
    requires i < |events| && |Filter(events, view)| <= 1
    ensures Filter(RemoveAt(events, i), view) == Filter(events, view) || Filter(RemoveAt(events, i), view) == []
  {
    FilterSplit(events, i, view);
    FilterConcat(events[..i], events[i + 1..], view);
  }

  predicate SameOrNone(now: seq<Event>, was: seq<Event>, view: Event -> bool) {
    Filter(now, view) == Filter(was, view) || Filter(now, view) == []
  }

  lemma DropView(q: Queue, view: Event -> bool)
    requires |Filter(q.events, view)| <= 1
    ensures SameOrNone(DropOldest(q).events, q.events, view)
  {
    var i := First(q.events, Errors);
    if i < |q.events| {
      RemoveView(q.events, i, view);
    }
  }

  lemma EvictOneView(events: seq<Event>, view: Event -> bool)
    requires |Filter(events, view)| <= 1
    ensures SameOrNone(Evict(events), events, view)
  {
    var i := First(events, Snapshots);
    if i < |events| {
      RemoveView(events, i, view);
    }
  }

  lemma RoomView(q: Queue, e: Event, view: Event -> bool)
    requires |Filter(q.events, view)| <= 1
    ensures SameOrNone(MakeRoom(q, e).events, q.events, view)
  {
    var q' := if DropsError(q, e) then DropOldest(q) else q;
    DropView(q, view);
    assert SameOrNone(q'.events, q.events, view);
    EvictOneView(q'.events, view);
  }

  /** A push replaces the snapshot of its own key and leaves or evicts any other. */
  lemma PushSnapshotView(q: Queue, e: Event, g: nat, k: Kind)
    requires Valid(q) && !k.Error? && |Filter(q.events, SnapshotsOf(g, k))| <= 1
    ensures var v := Filter(q.events, SnapshotsOf(g, k));
            var v' := Filter(Pushed(q, e).events, SnapshotsOf(g, k));
            if IsSnapshotOf(e, g, k) then v' == [e] else v' == v || v' == []
  {
    var view := SnapshotsOf(g, k);
    if Coalesces(q, e) {
      var i := Existing(q, e);
      FilterUpdate(q.events, i, e, view);
      FilterSplit(q.events, i, view);
      if IsSnapshotOf(e, g, k) {
        OneSnapshot(q.events, i, g, k);
      }
    } else {
      RoomView(q, e, view);
      FilterSnoc(MakeRoom(q, e).events, Stored(q, e), view);
      if IsSnapshotOf(e, g, k) {
        FilterNone(q.events, view);
      }
    }
  }

  lemma PushKeepsNewest(h: History, e: Event, g: nat, k: Kind)
    requires Valid(h.queue) && !k.Error? && NewestLast(h, g, k)
    ensures NewestLast(Next(h, Pushing(e)), g, k)
  {
    var view := SnapshotsOf(g, k);
    var pushed := Filter(h.pushed, view);
    PushSnapshotView(h.queue, e, g, k);
    FilterSnoc(h.pushed, Stored(h.queue, e), view);
    NewestAfterPush(Filter(h.popped, view), Filter(h.queue.events, view), pushed, e);
    assert pushed + [] == pushed;
  }

  lemma PopKeepsNewest(h: History, g: nat, k: Kind)
    requires NewestLast(h, g, k)
    ensures NewestLast(Next(h, Popping), g, k)
  {
    var events := h.queue.events;
    var view := SnapshotsOf(g, k);
    if events != [] {
      FilterSnoc(h.popped, events[0], view);
      NewestAfterPop(Filter(h.popped, view), Filter(events, view), One(events[0], view),
                     Filter(events[1..], view), Filter(h.pushed, view));
    }
  }

  lemma DiscardKeepsNewest(h: History, op: Op, g: nat, k: Kind)
    requires NewestLast(h, g, k) && Drops(op)
    ensures NewestLast(Next(h, op), g, k)
  {
    var view := SnapshotsOf(g, k);
    var e := Event(g, k, 0, 0, None);
    if Keeps(op)(e) {
      FilterWithin(h.queue.events, Keeps(op), view);
    } else {
      FilterOutside(h.queue.events, Keeps(op), view);
      NewestAfterPush(Filter(h.popped, view), Filter(h.queue.events, view), Filter(h.pushed, view), e);
    }
  }

  // Every run.

  function Run(h: History, ops: seq<Op>): History
    decreases |ops|
  {
    if ops == [] then h else Run(Next(h, ops[0]), ops[1..])
  }

  const EMPTY := History(Queue([], 0), [], [], [], [])

  ghost predicate Inv(h: History) {
    && Valid(h.queue)
    && Conserved(h)
    && (forall g :: LatestErrors(h, g))
    && (forall g, k: Kind :: !k.Error? ==> NewestLast(h, g, k))
  }

  lemma ValidStep(h: History, op: Op)
    requires Valid(h.queue)
    ensures Valid(Next(h, op).queue)
  {
    match op
    case Pushing(e) => PushKeepsValid(h.queue, e);
    case Popping =>
      if h.queue.events != [] {
        RemoveKeepsValid(h.queue, 0);
        assert RemoveAt(h.queue.events, 0) == h.queue.events[1..];
      }
    case _ => FilterKeepsValid(h.queue, Keeps(op));
  }

  lemma StepKeepsInv(h: History, op: Op)
    requires Inv(h)
    ensures Inv(Next(h, op))
  {
    ValidStep(h, op);
    match op
    case Pushing(e) =>
      PushConserves(h, e);
      forall g ensures LatestErrors(Next(h, op), g) { PushKeepsLatest(h, e, g); }
      forall g, k: Kind | !k.Error? ensures NewestLast(Next(h, op), g, k) { PushKeepsNewest(h, e, g, k); }
    case Popping =>
      PopConserves(h);
      forall g ensures LatestErrors(Next(h, op), g) { PopKeepsLatest(h, g); }
      forall g, k: Kind | !k.Error? ensures NewestLast(Next(h, op), g, k) { PopKeepsNewest(h, g, k); }
    case _ =>
      DiscardConserves(h, op);
      forall g ensures LatestErrors(Next(h, op), g) { DiscardKeepsLatest(h, op, g); }
      forall g, k: Kind | !k.Error? ensures NewestLast(Next(h, op), g, k) { DiscardKeepsNewest(h, op, g, k); }
  }

  lemma {:induction false} RunKeepsInv(h: History, ops: seq<Op>)
    requires Inv(h)
    ensures Inv(Run(h, ops))
    decreases |ops|
  {
    if ops != [] {
      StepKeepsInv(h, ops[0]);
      RunKeepsInv(Next(h, ops[0]), ops[1..]);
    }
  }

  lemma EmptyInv()
    ensures Inv(EMPTY)
  {
  }

  /** In every run: the bounds hold, no two queued snapshots share a key, every pushed error
      is accounted for, the queued errors of a generation are its latest, and delivery and
      queue never show an older snapshot after a newer one. */
  lemma EveryRunKeepsInv(ops: seq<Op>)
    ensures Inv(Run(EMPTY, ops))
  {
    EmptyInv();
    RunKeepsInv(EMPTY, ops);
  }

  // Delivery in time.

  function Position(q: Queue, g: nat, k: Kind): nat { First(q.events, SnapshotsOf(g, k)) }

  predicate Present(q: Queue, g: nat, k: Kind) { Position(q, g, k) < |q.events| }

  /** The operation neither delivers nor removes the snapshot of this key. */
  predicate Undisturbed(h: History, op: Op, g: nat, k: Kind) {
    && Present(h.queue, g, k)
    && (op.Popping? ==> Position(h.queue, g, k) > 0)
    && Present(Next(h, op).queue, g, k)
  }

  predicate AllUndisturbed(h: History, ops: seq<Op>, g: nat, k: Kind)
    decreases |ops|
  {
    ops == [] || (Undisturbed(h, ops[0], g, k) && AllUndisturbed(Next(h, ops[0]), ops[1..], g, k))
  }

  function Pops(ops: seq<Op>): nat {
    if ops == [] then 0 else (if ops[0].Popping? then 1 else 0) + Pops(ops[1..])
  }

  lemma NoneLeft(events: seq<Event>, view: Event -> bool)
    requires Filter(events, view) == []
    ensures First(events, view) == |events|
  {
    FilterMembers(events, view);
  }

  lemma RemoveOnly(events: seq<Event>, view: Event -> bool)
    requires First(events, view) < |events| && |Filter(events, view)| <= 1
    ensures Filter(RemoveAt(events, First(events, view)), view) == []
  {
    var i := First(events, view);
    FilterSplit(events, i, view);
    FilterConcat(events[..i], events[i + 1..], view);
  }

  lemma RemovePosition(events: seq<Event>, r: nat, view: Event -> bool)
    requires r < |events| && First(events, view) < |events|
    requires |Filter(events, view)| <= 1
    ensures First(RemoveAt(events, r), view) < |events| - 1 ==>
              First(RemoveAt(events, r), view) <= First(events, view)
  {
    if r != First(events, view) {
      FirstAfterRemove(events, r, view);
    } else {
      RemoveOnly(events, view);
      NoneLeft(RemoveAt(events, r), view);
    }
  }

  lemma AppendPosition(events: seq<Event>, e: Event, view: Event -> bool)
    requires First(events, view) < |events|
    ensures First(events + [e], view) == First(events, view)
  {
    FirstIs(events + [e], view, First(events, view));
  }

  lemma EvictPosition(events: seq<Event>, view: Event -> bool)
    requires |Filter(events, view)| <= 1
    requires First(Evict(events), view) < |Evict(events)|
    ensures First(events, view) < |events| && First(Evict(events), view) <= First(events, view)
  {
    var i := First(events, Snapshots);
    if i < |events| {
      PresentBefore(events, i, view);
      RemovePosition(events, i, view);
    }
  }

  lemma RoomPosition(q: Queue, e: Event, view: Event -> bool)
    requires First(q.events, view) < |q.events| && |Filter(q.events, view)| <= 1
    requires First(MakeRoom(q, e).events, view) < |MakeRoom(q, e).events|
    ensures First(MakeRoom(q, e).events, view) <= First(q.events, view)
  {
    var d := First(q.events, Errors);
    if DropsError(q, e) && d < |q.events| {
      RemovePosition(q.events, d, view);
      RemoveView(q.events, d, view);
      if |DropOldest(q).events| >= CAPACITY {
        EvictPosition(DropOldest(q).events, view);
      }
    } else if |q.events| >= CAPACITY {
      EvictPosition(q.events, view);
    }
  }

  lemma PresentBefore(events: seq<Event>, r: nat, view: Event -> bool)
    requires r < |events| && First(RemoveAt(events, r), view) < |events| - 1
    ensures First(events, view) < |events|
  {
    var j := First(RemoveAt(events, r), view);
    RemovedAt(events, r, j);
    Finds(events, if j < r then j else j + 1, view);
  }

  lemma Finds(events: seq<Event>, i: nat, view: Event -> bool)
    requires i < |events| && view(events[i])
    ensures First(events, view) < |events|
  {
  }

  lemma RemovedAt(events: seq<Event>, r: nat, j: nat)
    requires r < |events| && j < |events| - 1
    ensures RemoveAt(events, r)[j] == events[if j < r then j else j + 1]
  {
  }

  lemma PushPosition(h: History, e: Event, g: nat, k: Kind)
    requires Valid(h.queue) && !k.Error? && NewestLast(h, g, k)
    requires Undisturbed(h, Pushing(e), g, k)
    ensures Position(Pushed(h.queue, e), g, k) <= Position(h.queue, g, k)
  {
    var q, view := h.queue, SnapshotsOf(g, k);
    if Coalesces(q, e) {
      if Position(q, g, k) < |q.events| {
        FirstIs(q.events[Existing(q, e) := e], view, Position(q, g, k));
      }
    } else {
      var room := MakeRoom(q, e).events;
      if First(room, view) < |room| {
        AppendPosition(room, Stored(q, e), view);
        RoomPosition(q, e, view);
      }
    }
  }

  lemma PopPosition(events: seq<Event>, view: Event -> bool)
    requires 0 < First(events, view) < |events|
    ensures First(events[1..], view) == First(events, view) - 1
  {
  }

  /** Purging and retaining look at generation and kind only, so they treat alike all
      snapshots of one key. */
  lemma KeptPosition(events: seq<Event>, op: Op, g: nat, k: Kind)
    requires First(events, SnapshotsOf(g, k)) < |events|
    requires First(Filter(events, Keeps(op)), SnapshotsOf(g, k)) < |Filter(events, Keeps(op))|
    ensures First(Filter(events, Keeps(op)), SnapshotsOf(g, k)) <= First(events, SnapshotsOf(g, k))
  {
    var view, kept := SnapshotsOf(g, k), Filter(events, Keeps(op));
    var x, y := kept[First(kept, view)], events[First(events, view)];
    FilterMembers(events, Keeps(op));
    assert x in kept && Keeps(op)(x) && view(x) && view(y);
    assert Keeps(op)(y);
    FirstAfterFilter(events, Keeps(op), view);
  }

  lemma StepPosition(h: History, op: Op, g: nat, k: Kind)
    requires Inv(h) && !k.Error? && Undisturbed(h, op, g, k)
    ensures Position(Next(h, op).queue, g, k) <= Position(h.queue, g, k) - (if op.Popping? then 1 else 0)
  {
    var events, view := h.queue.events, SnapshotsOf(g, k);
    match op
    case Pushing(e) => PushPosition(h, e, g, k);
    case Popping => PopPosition(events, view);
    case _ => KeptPosition(events, op, g, k);
  }

  lemma {:induction false} PositionFalls(h: History, ops: seq<Op>, g: nat, k: Kind)
    requires Inv(h) && !k.Error? && Present(h.queue, g, k)
    requires AllUndisturbed(h, ops, g, k)
    ensures Present(Run(h, ops).queue, g, k)
    ensures Position(Run(h, ops).queue, g, k) + Pops(ops) <= Position(h.queue, g, k)
    decreases |ops|
  {
    if ops != [] {
      StepKeepsInv(h, ops[0]);
      StepPosition(h, ops[0], g, k);
      PositionFalls(Next(h, ops[0]), ops[1..], g, k);
    }
  }

  /** A queued snapshot never moves back: if it is neither evicted nor purged, the number of
      pops before it is delivered is at most its index. */
  lemma DeliveredInTime(before: seq<Op>, ops: seq<Op>, g: nat, k: Kind)
    requires !k.Error? && Present(Run(EMPTY, before).queue, g, k)
    requires AllUndisturbed(Run(EMPTY, before), ops, g, k)
    ensures var h := Run(EMPTY, before);
            Present(Run(h, ops).queue, g, k) &&
            Position(Run(h, ops).queue, g, k) + Pops(ops) <= Position(h.queue, g, k)
  {
    EveryRunKeepsInv(before);
    PositionFalls(Run(EMPTY, before), ops, g, k);
  }
}
