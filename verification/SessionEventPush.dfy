/** What a push does to a valid queue, case by case, in terms of places in the queue: it
    replaces, appends, drops the first error or evicts the first snapshot, and nothing more. */
module SessionEventPush {
  import opened Sequences
  import opened SessionEventQueue

  /** The places of the errors in a queue. */
  function ErrorPlaces(events: seq<Event>): set<nat> {
    set i: nat | i < |events| && events[i].kind == Error
  }

  lemma {:induction false} ErrorsAreCounted(events: seq<Event>)
    ensures |ErrorPlaces(events)| == ErrorCount(events)
    decreases |events|
  {
    if events != [] {
      var init, last := events[..|events| - 1], |events| - 1;
      ErrorsAreCounted(init);
      assert events == init + [events[last]];
      FilterSnoc(init, events[last], Errors);
      if events[last].kind == Error {
        assert ErrorPlaces(events) == ErrorPlaces(init) + {last};
      } else {
        assert ErrorPlaces(events) == ErrorPlaces(init);
      }
    }
  }

  /** No queued event has the generation and kind of the pushed one. */
  predicate NewKey(events: seq<Event>, e: Event) {
    forall i :: 0 <= i < |events| ==> events[i].generation != e.generation || events[i].kind != e.kind
  }

  /** The queued event whose place a snapshot takes. */
  predicate ReplacesAt(events: seq<Event>, e: Event, i: nat) {
    e.kind != Error && i < |events| && events[i].generation == e.generation && events[i].kind == e.kind
  }

  /** There is room. */
  predicate HasRoom(events: seq<Event>, e: Event) {
    |events| < 64 && if e.kind == Error then |ErrorPlaces(events)| < 16 else NewKey(events, e)
  }

  /** The error that makes room for a seventeenth: the oldest one. */
  predicate DropsAt(events: seq<Event>, e: Event, i: nat) {
    && e.kind == Error && |ErrorPlaces(events)| == 16
    && i < |events| && events[i].kind == Error && forall j :: 0 <= j < i ==> events[j].kind != Error
  }

  /** The snapshot that makes room in a full queue: the oldest one. */
  predicate EvictsAt(events: seq<Event>, e: Event, i: nat) {
    && |events| == 64 && (if e.kind == Error then |ErrorPlaces(events)| < 16 else NewKey(events, e))
    && i < |events| && events[i].kind != Error && forall j :: 0 <= j < i ==> events[j].kind == Error
  }

  lemma SameKeySamePlace(events: seq<Event>, i: nat, j: nat)
    requires Distinct(events) && i < |events| && j < |events| && events[i].kind != Error
    requires events[i].generation == events[j].generation && events[i].kind == events[j].kind
    ensures i == j
  {
    if i < j {
      assert IsSnapshotOf(events[j], events[i].generation, events[i].kind);
    } else if j < i {
      assert IsSnapshotOf(events[i], events[j].generation, events[j].kind);
    }
  }

  lemma NotCoalesced(q: Queue, e: Event)
    requires e.kind == Error || NewKey(q.events, e)
    ensures !Coalesces(q, e)
  {
  }

  /** A snapshot replaces the queued one of its generation and kind, where that stands. */
  lemma PushReplaces(q: Queue, e: Event, i: nat)
    requires Valid(q) && ReplacesAt(q.events, e, i)
    ensures Pushed(q, e) == Queue(q.events[i := e], q.dropped)
  {
    assert SnapshotsOf(e.generation, e.kind)(q.events[i]);
    SameKeySamePlace(q.events, i, Existing(q, e));
  }

  /** With room in the queue, and for an error fewer than 16 errors in it, the event is
      appended as it is and nothing is lost. */
  lemma PushAppends(q: Queue, e: Event)
    requires Valid(q) && HasRoom(q.events, e)
    ensures Pushed(q, e) == Queue(q.events + [e], q.dropped)
  {
    ErrorsAreCounted(q.events);
    NotCoalesced(q, e);
  }

  /** The seventeenth error takes the place of the oldest one, and says how many are gone. */
  lemma PushDropsError(q: Queue, e: Event, i: nat)
    requires Valid(q) && DropsAt(q.events, e, i)
    ensures Pushed(q, e) ==
            Queue(q.events[..i] + q.events[i + 1..] + [e.(droppedBefore := q.dropped + 1)], q.dropped + 1)
  {
    ErrorsAreCounted(q.events);
    FirstIs(q.events, Errors, i);
    NotCoalesced(q, e);
  }

  /** A full queue loses its oldest snapshot to anything else that is new. */
  lemma PushEvicts(q: Queue, e: Event, i: nat)
    requires Valid(q) && EvictsAt(q.events, e, i)
    ensures Pushed(q, e) == Queue(q.events[..i] + q.events[i + 1..] + [e], q.dropped)
  {
    ErrorsAreCounted(q.events);
    FirstIs(q.events, Snapshots, i);
    NotCoalesced(q, e);
  }

  lemma FirstError(events: seq<Event>) returns (i: nat)
    requires |ErrorPlaces(events)| > 0
    ensures i < |events| && events[i].kind == Error && forall j :: 0 <= j < i ==> events[j].kind != Error
  {
    ErrorsAreCounted(events);
    HasError(events);
    i := First(events, Errors);
  }

  lemma FirstSnapshot(events: seq<Event>) returns (i: nat)
    requires |events| == 64 && |ErrorPlaces(events)| <= 16
    ensures i < |events| && events[i].kind != Error && forall j :: 0 <= j < i ==> events[j].kind == Error
  {
    ErrorsAreCounted(events);
    FullHasSnapshot(events);
    i := First(events, Snapshots);
  }

  /** There is no other case. */
  lemma PushIsOneOf(q: Queue, e: Event)
    requires Valid(q)
    ensures || HasRoom(q.events, e)
            || (exists i :: ReplacesAt(q.events, e, i))
            || (exists i :: DropsAt(q.events, e, i))
            || (exists i :: EvictsAt(q.events, e, i))
  {
    ErrorsAreCounted(q.events);
    if e.kind == Error && |ErrorPlaces(q.events)| == 16 {
      var i := FirstError(q.events);
      assert DropsAt(q.events, e, i);
    } else if e.kind != Error && !NewKey(q.events, e) {
      var i :| 0 <= i < |q.events| && q.events[i].generation == e.generation && q.events[i].kind == e.kind;
      assert ReplacesAt(q.events, e, i);
    } else if |q.events| == 64 {
      var i := FirstSnapshot(q.events);
      assert EvictsAt(q.events, e, i);
    }
  }

  /** Purging takes the samples and plots of one generation, and those only. */
  lemma PurgedAre(events: seq<Event>, generation: nat, x: Event)
    ensures x in Filter(events, NotMeasuring(generation)) <==>
            x in events && !(x.generation == generation && (x.kind == Sample || x.kind == Plot))
  {
    FilterMembers(events, NotMeasuring(generation));
  }

  /** Retaining keeps the events of one generation, and those only. */
  lemma RetainedAre(events: seq<Event>, generation: nat, x: Event)
    ensures x in Filter(events, InGeneration(generation)) <==> x in events && x.generation == generation
  {
    FilterMembers(events, InGeneration(generation));
  }
}
