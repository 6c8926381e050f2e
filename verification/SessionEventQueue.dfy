/** The bounded session event queue: snapshots coalesce per generation and kind, errors
    are kept separately up to a limit of their own. */
module SessionEventQueue {
  import opened Wrappers
  import opened Sequences

  const CAPACITY: nat := 64
  const ERROR_CAPACITY: nat := 16

  /** The payload alternatives, in the order of the variant. */
  datatype Kind = Connection | Health | Sample | Plot | Recording | Configuration | Error

  datatype Event = Event(generation: nat, kind: Kind, body: nat, droppedBefore: nat, lease: Option<nat>) {
    predicate IsError() { kind.Error? }
    predicate IsMeasurement() { kind.Sample? || kind.Plot? }
  }

  predicate IsErrorOf(e: Event, generation: nat) { e.IsError() && e.generation == generation }

  predicate IsSnapshotOf(e: Event, generation: nat, kind: Kind) {
    e.generation == generation && e.kind == kind
  }

  const Errors: Event -> bool := (e: Event) => e.IsError()
  const Snapshots: Event -> bool := (e: Event) => !e.IsError()

  function ErrorsOf(generation: nat): Event -> bool { (e: Event) => IsErrorOf(e, generation) }

  function SnapshotsOf(generation: nat, kind: Kind): Event -> bool {
    (e: Event) => IsSnapshotOf(e, generation, kind)
  }

  function NotMeasuring(generation: nat): Event -> bool {
    (e: Event) => !(e.generation == generation && e.IsMeasurement())
  }

  function InGeneration(generation: nat): Event -> bool { (e: Event) => e.generation == generation }

  function ErrorCount(events: seq<Event>): nat { |Filter(events, Errors)| }

  datatype Queue = Queue(events: seq<Event>, dropped: nat)

  /** The bounds, and one snapshot at most per generation and kind. */
  predicate Valid(q: Queue) {
    && |q.events| <= CAPACITY
    && ErrorCount(q.events) <= ERROR_CAPACITY
    && Distinct(q.events)
  }

  predicate Distinct(events: seq<Event>) {
    forall i, j :: 0 <= i < j < |events| && !events[i].IsError() ==>
      !IsSnapshotOf(events[j], events[i].generation, events[i].kind)
  }

  // What push() does to a valid queue.

  function Existing(q: Queue, e: Event): nat {
    First(q.events, SnapshotsOf(e.generation, e.kind))
  }

  predicate Coalesces(q: Queue, e: Event) {
    !e.IsError() && Existing(q, e) < |q.events|
  }

  predicate DropsError(q: Queue, e: Event) {
    e.IsError() && ErrorCount(q.events) >= ERROR_CAPACITY
  }

  function Annotate(e: Event, dropped: nat): Event {
    if e.IsError() then e.(droppedBefore := dropped) else e
  }

  /** The event as it enters the queue. */
  function Stored(q: Queue, e: Event): Event {
    if DropsError(q, e) then Annotate(e, q.dropped + 1) else e
  }

  function DropOldest(q: Queue): Queue {
    var i := First(q.events, Errors);
    if i < |q.events| then Queue(RemoveAt(q.events, i), q.dropped + 1) else q
  }

  function OldestError(events: seq<Event>): seq<Event> {
    var i := First(events, Errors);
    if i < |events| then [events[i]] else []
  }

  /** The error that pushing e drops, if it drops one. */
  function DroppedBy(q: Queue, e: Event): seq<Event> {
    if DropsError(q, e) then OldestError(q.events) else []
  }

  function Evict(events: seq<Event>): seq<Event> {
    var i := First(events, Snapshots);
    if i < |events| then RemoveAt(events, i) else events
  }

  function MakeRoom(q: Queue, e: Event): Queue {
    var q' := if DropsError(q, e) then DropOldest(q) else q;
    if |q'.events| >= CAPACITY then q'.(events := Evict(q'.events)) else q'
  }

  function Pushed(q: Queue, e: Event): Queue {
    if Coalesces(q, e) then q.(events := q.events[Existing(q, e) := e])
    else
      var room := MakeRoom(q, e);
      room.(events := room.events + [Stored(q, e)])
  }

  /** A full queue always has a snapshot to evict, because errors alone cannot fill it. */
  lemma FullHasSnapshot(events: seq<Event>)
    requires |events| >= CAPACITY && ErrorCount(events) <= ERROR_CAPACITY
    ensures First(events, Snapshots) < |events|
  {
    if First(events, Snapshots) == |events| {
      forall e | e in events
        ensures Errors(e)
      {
        var i :| 0 <= i < |events| && events[i] == e;
      }
      FilterAll(events, Errors);
      assert false;
    }
  }

  lemma HasError(events: seq<Event>)
    requires ErrorCount(events) > 0
    ensures First(events, Errors) < |events|
  {
    if First(events, Errors) == |events| {
      FilterNone(events, Errors);
      assert false;
    }
  }

  lemma RemoveKeepsValid(q: Queue, i: nat)
    requires Valid(q) && i < |q.events|
    ensures Valid(q.(events := RemoveAt(q.events, i)))
    ensures ErrorCount(RemoveAt(q.events, i)) == ErrorCount(q.events) - (if q.events[i].IsError() then 1 else 0)
  {
    FilterSplit(q.events, i, Errors);
    FilterConcat(q.events[..i], q.events[i + 1..], Errors);
  }

  lemma RoomKeepsValid(q: Queue, e: Event)
    requires Valid(q)
    ensures var room := MakeRoom(q, e);
            Valid(room) && |room.events| < CAPACITY &&
            (e.IsError() ==> ErrorCount(room.events) < ERROR_CAPACITY)
  {
    if DropsError(q, e) {
      HasError(q.events);
      RemoveKeepsValid(q, First(q.events, Errors));
    } else if |q.events| >= CAPACITY {
      FullHasSnapshot(q.events);
      RemoveKeepsValid(q, First(q.events, Snapshots));
    }
  }

  lemma CoalesceKeepsValid(q: Queue, e: Event)
    requires Valid(q) && Coalesces(q, e)
    ensures Valid(Pushed(q, e))
  {
    var i := Existing(q, e);
    FilterUpdate(q.events, i, e, Errors);
    FilterSplit(q.events, i, Errors);
  }

  lemma EvictKeepsAbsent(q: Queue, e: Event)
    requires forall x <- q.events :: !IsSnapshotOf(x, e.generation, e.kind)
    ensures forall x <- MakeRoom(q, e).events :: !IsSnapshotOf(x, e.generation, e.kind)
  {
  }

  lemma PushKeepsValid(q: Queue, e: Event)
    requires Valid(q)
    ensures Valid(Pushed(q, e))
  {
    if Coalesces(q, e) {
      CoalesceKeepsValid(q, e);
    } else {
      RoomKeepsValid(q, e);
      var room := MakeRoom(q, e);
      FilterSnoc(room.events, Stored(q, e), Errors);
      if !e.IsError() {
        forall x | x in q.events
          ensures !IsSnapshotOf(x, e.generation, e.kind)
        {
          var i :| 0 <= i < |q.events| && q.events[i] == x;
        }
        EvictKeepsAbsent(q, e);
      }
    }
  }

  lemma DistinctCons(e: Event, tail: seq<Event>)
    requires Distinct(tail)
    requires e.IsError() || forall x <- tail :: !IsSnapshotOf(x, e.generation, e.kind)
    ensures Distinct([e] + tail)
  {
    var r := [e] + tail;
    forall i, j | 0 <= i < j < |r| && !r[i].IsError()
      ensures !IsSnapshotOf(r[j], r[i].generation, r[i].kind)
    {
      assert r[j] == tail[j - 1];
      if i > 0 {
        assert r[i] == tail[i - 1];
      }
    }
  }

  lemma {:induction false} FilterKeepsDistinct(events: seq<Event>, keep: Event -> bool)
    requires Distinct(events)
    ensures Distinct(Filter(events, keep))
    decreases |events|
  {
    if events != [] {
      var tail := Filter(events[1..], keep);
      FilterKeepsDistinct(events[1..], keep);
      FilterMembers(events[1..], keep);
      forall x | x in tail && !events[0].IsError()
        ensures !IsSnapshotOf(x, events[0].generation, events[0].kind)
      {
        var k :| 0 <= k < |events[1..]| && events[1..][k] == x;
        assert events[k + 1] == x;
      }
      DistinctCons(events[0], tail);
    }
  }

  lemma {:induction false} FilterFewerErrors(events: seq<Event>, keep: Event -> bool)
    ensures ErrorCount(Filter(events, keep)) <= ErrorCount(events)
    decreases |events|
  {
    if events != [] {
      FilterFewerErrors(events[1..], keep);
      if keep(events[0]) {
        assert Filter(events, keep)[1..] == Filter(events[1..], keep);
      } else {
        assert Filter(events, keep) == Filter(events[1..], keep);
      }
    }
  }

  lemma FilterKeepsValid(q: Queue, keep: Event -> bool)
    requires Valid(q)
    ensures Valid(q.(events := Filter(q.events, keep)))
  {
    FilterKeepsDistinct(q.events, keep);
    FilterFewerErrors(q.events, keep);
  }

  // The erase loops.

  /** The first `seen` elements have been filtered in place; the rest is untouched. */
  ghost predicate Erased(before: seq<Event>, seen: nat, keep: Event -> bool, now: seq<Event>, cursor: nat) {
    && seen <= |before|
    && cursor == |Filter(before[..seen], keep)|
    && now == Filter(before[..seen], keep) + before[seen..]
  }

  lemma EraseStep(before: seq<Event>, seen: nat, keep: Event -> bool, now: seq<Event>, cursor: nat)
    requires Erased(before, seen, keep, now, cursor) && cursor < |now|
    ensures seen < |before| && now[cursor] == before[seen]
    ensures if keep(now[cursor]) then Erased(before, seen + 1, keep, now, cursor + 1)
            else Erased(before, seen + 1, keep, RemoveAt(now, cursor), cursor)
  {
    assert before[..seen + 1] == before[..seen] + [before[seen]];
    FilterSnoc(before[..seen], before[seen], keep);
  }

  // The queue as the object the sink owns.

  class SessionEventQueue {
    var events: seq<Event>
    var droppedErrors: nat

    function AsQueue(): Queue
      reads this
    {
      Queue(events, droppedErrors)
    }

    constructor ()
      ensures AsQueue() == Queue([], 0)
    {
      events, droppedErrors := [], 0;
    }

    method DropOldestError()
      modifies this
      ensures AsQueue() == DropOldest(old(AsQueue()))
    {
      var error := First(events, Errors);
      if error < |events| {
        events := RemoveAt(events, error);
        droppedErrors := droppedErrors + 1;
      }
    }

    /** The second arm of the capacity loop, which would drop an error, is unreachable. */
    method Push(event: Event)
      requires Valid(AsQueue())
      modifies this
      ensures Valid(AsQueue())
      ensures AsQueue() == Pushed(old(AsQueue()), event)
    {
      PushKeepsValid(AsQueue(), event);
      RoomKeepsValid(AsQueue(), event);
      var e := event;
      if !e.IsError() {
        var existing := First(events, SnapshotsOf(e.generation, e.kind));
        if existing < |events| {
          events := events[existing := e];
          return;
        }
      } else if ErrorCount(events) >= ERROR_CAPACITY {
        HasError(events);
        DropOldestError();
        e := Annotate(e, droppedErrors);
      }
      ghost var crowded := AsQueue();
      while |events| >= CAPACITY
        invariant |events| < CAPACITY || AsQueue() == crowded
        invariant AsQueue() == crowded ||
                  (|crowded.events| >= CAPACITY && AsQueue() == crowded.(events := Evict(crowded.events)))
        invariant droppedErrors == crowded.dropped
        decreases |events|
      {
        FullHasSnapshot(events);
        var state := First(events, Snapshots);
        if state < |events| {
          events := RemoveAt(events, state);
        } else {
          assert false;
        }
      }
      events := events + [e];
    }

    method Pop() returns (event: Option<Event>)
      modifies this
      ensures droppedErrors == old(droppedErrors)
      ensures old(events) == [] ==> event == None && events == []
      ensures old(events) != [] ==> event == Some(old(events)[0]) && events == old(events)[1..]
    {
      if events == [] {
        return None;
      }
      event := Some(events[0]);
      events := events[1..];
    }

    method PurgeMeasurements(generation: nat)
      modifies this
      ensures AsQueue() == old(AsQueue()).(events := Filter(old(events), NotMeasuring(generation)))
    {
      var cursor := 0;
      ghost var before, seen := events, 0;
      while cursor < |events|
        invariant droppedErrors == old(droppedErrors)
        invariant Erased(before, seen, NotMeasuring(generation), events, cursor)
        decreases |events| - cursor
      {
        EraseStep(before, seen, NotMeasuring(generation), events, cursor);
        if events[cursor].generation == generation && events[cursor].IsMeasurement() {
          events := RemoveAt(events, cursor);
        } else {
          cursor := cursor + 1;
        }
        seen := seen + 1;
      }
      assert before[..seen] == before;
    }

    method RetainGeneration(generation: nat)
      modifies this
      ensures AsQueue() == old(AsQueue()).(events := Filter(old(events), InGeneration(generation)))
    {
      var cursor := 0;
      ghost var before, seen := events, 0;
      while cursor < |events|
        invariant droppedErrors == old(droppedErrors)
        invariant Erased(before, seen, InGeneration(generation), events, cursor)
        decreases |events| - cursor
      {
        EraseStep(before, seen, InGeneration(generation), events, cursor);
        if events[cursor].generation != generation {
          events := RemoveAt(events, cursor);
        } else {
          cursor := cursor + 1;
        }
        seen := seen + 1;
      }
      assert before[..seen] == before;
    }

    method Clear()
      modifies this
      ensures AsQueue() == old(AsQueue()).(events := [])
    {
      events := [];
    }
  }
}
