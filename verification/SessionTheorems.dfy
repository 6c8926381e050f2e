/** After set_paused(true) or disconnect() has returned, no measurement is deliverable until
    another callback is admitted; and leases only ever lose their validity. */
module SessionTheorems {
  import opened Wrappers
  import opened SessionEventQueue
  import opened SessionProtocol
  import Sequences

  // Leases.

  /** Epochs strictly increase, and only the newest lease can be valid. */
  ghost predicate LeasesOrdered(k: Sink) {
    && (forall i, j :: 0 <= i < j < |k.leases| ==> k.leases[i].epoch < k.leases[j].epoch)
    && (forall i :: 0 <= i < |k.leases| - 1 ==> !k.leases[i].valid)
    && k.leases[Current(k)].epoch <= k.nextEpoch
  }

  /** Leases are only added, and no lease that was invalid is valid. */
  ghost predicate Fades(k: Sink, k': Sink) {
    && |k.leases| <= |k'.leases|
    && forall i :: 0 <= i < |k.leases| ==>
         k'.leases[i].epoch == k.leases[i].epoch && (k'.leases[i].valid ==> k.leases[i].valid)
  }

  /** Every measurement holds a lease that exists. */
  ghost predicate Held(events: seq<Event>, count: nat) {
    forall e <- events :: e.IsMeasurement() ==> e.lease.Some? && e.lease.value < count
  }

  ghost predicate Dead(events: seq<Event>, leases: seq<Lease>) {
    forall e <- events :: e.IsMeasurement() ==>
      e.lease.Some? && e.lease.value < |leases| && !leases[e.lease.value].valid
  }

  /** The sink operation adds no measurement. */
  ghost predicate Calms(k: Sink, k': Sink) {
    && LeasesOrdered(k')
    && Fades(k, k')
    && forall e <- k'.queue.events :: e.IsMeasurement() ==> e in k.queue.events
  }

  lemma RevokeCalms(k: Sink)
    requires LeasesOrdered(k)
    ensures Calms(k, Revoke(k)) && !Revoke(k).leases[Current(k)].valid
  {
  }

  lemma BeginCalms(k: Sink, granted: bool)
    requires LeasesOrdered(k)
    ensures Calms(k, Begin(k, granted))
  {
  }

  lemma FilterCalms(k: Sink, keep: Event -> bool)
    requires LeasesOrdered(k)
    ensures Calms(k, k.(queue := k.queue.(events := Sequences.Filter(k.queue.events, keep))))
  {
    Sequences.FilterMembers(k.queue.events, keep);
  }

  lemma FinishCalms(k: Sink)
    requires LeasesOrdered(k)
    ensures Calms(k, Finish(k))
  {
    RevokeCalms(k);
    FilterCalms(Revoke(k).(finishing := true), NotMeasuring(0));
  }

  lemma CloseCalms(k: Sink)
    requires LeasesOrdered(k)
    ensures Calms(k, Close(k))
  {
    RevokeCalms(k);
  }

  lemma RemoveMembers(events: seq<Event>, i: nat)
    requires i < |events|
    ensures forall x <- Sequences.RemoveAt(events, i) :: x in events
  {
  }

  lemma RoomMembers(q: Queue, e: Event)
    ensures forall x <- MakeRoom(q, e).events :: x in q.events
  {
    var first := Sequences.First(q.events, Errors);
    var room := if DropsError(q, e) then DropOldest(q) else q;
    if first < |q.events| {
      RemoveMembers(q.events, first);
    }
    var next := Sequences.First(room.events, Snapshots);
    if next < |room.events| {
      RemoveMembers(room.events, next);
    }
  }

  lemma PushedMembers(q: Queue, e: Event)
    ensures forall x <- Pushed(q, e).events :: x in q.events || x == Stored(q, e)
  {
    RoomMembers(q, e);
  }

  lemma EnqueueCalms(k: Sink, e: Event)
    requires LeasesOrdered(k) && !e.IsMeasurement()
    ensures Calms(k, Enqueue(k, e))
  {
    PushedMembers(k.queue, e.(lease := None));
  }

  /** A measurement enters only with the current lease, and only while it is valid. */
  lemma EnqueueHolds(k: Sink, e: Event)
    requires LeasesOrdered(k) && Held(k.queue.events, |k.leases|)
    ensures Enqueue(k, e).leases == k.leases && LeasesOrdered(Enqueue(k, e))
    ensures Held(Enqueue(k, e).queue.events, |k.leases|)
  {
    PushedMembers(k.queue, e.(lease := Some(Current(k))));
    PushedMembers(k.queue, e.(lease := None));
  }

  lemma CalmKeepsHeld(k: Sink, k': Sink, popped: seq<Event>)
    requires Calms(k, k') && Held(k.queue.events, |k.leases|) && Held(popped, |k.leases|)
    ensures Held(k'.queue.events, |k'.leases|) && Held(popped, |k'.leases|)
    ensures Dead(k.queue.events, k.leases) ==> Dead(k'.queue.events, k'.leases)
    ensures Dead(popped, k.leases) ==> Dead(popped, k'.leases)
  {
  }

  // The session.

  /** The control operation has stopped admission and waits for the callbacks inside. */
  predicate Awaiting(c: Control) { c == InDisconnect(DAwait) || c == InPause(PAwait) }

  /** The last callback has left. */
  predicate Revoking(c: Control) { c == InDisconnect(DRevoke) || c == InPause(PRevoke) }

  predicate Silenced(c: Control) {
    || (c.InDisconnect? && !c.disconnect.DBegin? && !c.disconnect.DAwait? && !c.disconnect.DRevoke?)
    || (c.InPause? && !c.pause.PBegin? && !c.pause.PAwait? && !c.pause.PRevoke?)
  }

  predicate Gates(c: Control, link: Link, revoked: bool) {
    && (Awaiting(c) ==> !link.accepting)
    && (Revoking(c) ==> !link.accepting && link.active == 0)
    && (Silenced(c) ==> !link.accepting && revoked)
    && (c.InResume? && !c.resume.RBegin? ==> !link.state.Disconnected?)
    && (link.paused || link.state.Disconnected? ==> !link.accepting && revoked)
    && (revoked ==> link.active == 0)
  }

  ghost predicate Measured(k: Sink, popped: seq<Event>, revoked: bool) {
    && LeasesOrdered(k)
    && Held(k.queue.events, |k.leases|)
    && Held(popped, |k.leases|)
    && (revoked ==> Dead(k.queue.events, k.leases) && Dead(popped, k.leases))
  }

  /** The part of the invariant that no sink operation touches. */
  predicate Flow(s: Session) {
    && Gates(s.control, s.link, s.revoked)
    && |s.callbacks| == s.link.active
    && (s.health.HealthEnqueuing? ==> !s.health.event.IsMeasurement())
    && (s.quiet ==> s.revoked)
  }

  ghost predicate Inv(s: Session) { Flow(s) && Measured(s.sink, s.popped, s.revoked) }

  /** What a step owes the sink. */
  ghost predicate Keeps(s: Session, n: Session) {
    Measured(n.sink, n.popped, n.revoked) && Fades(s.sink, n.sink)
  }

  lemma MeasuredCalm(k: Sink, k': Sink, popped: seq<Event>, revoked: bool)
    requires Measured(k, popped, revoked) && Calms(k, k')
    ensures Measured(k', popped, revoked)
  {
    CalmKeepsHeld(k, k', popped);
  }

  /** Revoking with no callback inside kills every measurement, queued or popped. */
  lemma RevokeKills(k: Sink, popped: seq<Event>, revoked: bool)
    requires Measured(k, popped, revoked)
    ensures Measured(Revoke(k), popped, true) && Fades(k, Revoke(k))
  {
    RevokeCalms(k);
    CalmKeepsHeld(k, Revoke(k), popped);
  }

  /** Nothing happened that the sink's part speaks of. */
  lemma StillKeeps(s: Session, n: Session)
    requires Measured(s.sink, s.popped, s.revoked)
    requires n.sink == s.sink && n.popped == s.popped && (n.revoked ==> s.revoked)
    ensures Keeps(s, n)
  {
  }

  lemma CalmKeeps(s: Session, n: Session)
    requires Measured(s.sink, s.popped, s.revoked) && Calms(s.sink, n.sink)
    requires n.popped == s.popped && n.revoked == s.revoked
    ensures Keeps(s, n)
  {
    MeasuredCalm(s.sink, n.sink, s.popped, s.revoked);
  }

  // Callbacks.

  lemma PublishCalms(k: Sink, revision: nat, g: nat, point: Publish, c: Choice)
    requires LeasesOrdered(k)
    ensures Calms(k, PublishConfiguration(k, revision, g, point, c).0)
  {
    match point
    case PublishRevoke => RevokeCalms(k);
    case PublishPurge => FilterCalms(k, NotMeasuring(g));
    case PublishBegin => BeginCalms(k, c.ok);
    case PublishPush => EnqueueCalms(k, Event(g, Configuration, c.event.body, 0, None));
  }

  lemma CallbackActive(s: Session, id: nat)
    requires Flow(s) && id in s.callbacks
    ensures s.link.active > 0 && !s.revoked
    ensures |s.callbacks - {id}| == |s.callbacks| - 1
  {
    assert s.callbacks.Keys == (s.callbacks - {id}).Keys + {id};
  }

  lemma MoveKeepsCount(s: Session, id: nat, next: Callback)
    requires id in s.callbacks
    ensures |Move(s, id, next).callbacks| == |s.callbacks|
  {
    assert Move(s, id, next).callbacks.Keys == s.callbacks.Keys;
  }

  lemma AdmitKeepsFlow(s: Session, id: nat, generation: nat)
    requires Flow(s)
    ensures Flow(AdmitCallback(s, id, generation))
  {
  }

  lemma RecordKeepsFlow(s: Session, id: nat, g: nat, c: Choice)
    requires Flow(s) && id in s.callbacks
    ensures Flow(Record(s, id, g, c))
  {
    CallbackActive(s, id);
    MoveKeepsCount(s, id, Publishing(g));
    MoveKeepsCount(s, id, Configuring(g, FirstPublish(s.link.revision)));
  }

  lemma ConfigureKeepsFlow(s: Session, id: nat, g: nat, point: Publish, c: Choice)
    requires Flow(s) && id in s.callbacks
    ensures Flow(Configure(s, id, g, point, c))
  {
    CallbackActive(s, id);
    var next := PublishConfiguration(s.sink, s.link.revision, g, point, c).2;
    MoveKeepsCount(s, id, Publishing(g));
    if next.Some? {
      MoveKeepsCount(s, id, Configuring(g, next.value));
    }
  }

  lemma CallbackKeepsFlow(s: Session, id: nat, c: Choice)
    requires Flow(s) && id in s.callbacks
    ensures Flow(AdvanceCallback(s, id, c))
  {
    CallbackActive(s, id);
    match s.callbacks[id]
    case Working(g) => RecordKeepsFlow(s, id, g, c);
    case Configuring(g, point) => ConfigureKeepsFlow(s, id, g, point, c);
    case Publishing(g) => MoveKeepsCount(s, id, Enqueuing(g, c.event));
    case Enqueuing(g, event) => MoveKeepsCount(s, id, Publishing(g));
  }

  lemma EnqueueKeepsMeasured(k: Sink, e: Event, popped: seq<Event>)
    requires Measured(k, popped, false)
    ensures Measured(Enqueue(k, e), popped, false) && Fades(k, Enqueue(k, e))
  {
    EnqueueHolds(k, e);
  }

  lemma CallbackKeeps(s: Session, id: nat, c: Choice)
    requires Inv(s) && id in s.callbacks
    ensures Keeps(s, AdvanceCallback(s, id, c))
  {
    CallbackActive(s, id);
    var n := AdvanceCallback(s, id, c);
    match s.callbacks[id]
    case Working(g) => StillKeeps(s, n);
    case Configuring(g, point) =>
      PublishCalms(s.sink, s.link.revision, g, point, c);
      CalmKeeps(s, n);
    case Publishing(g) => StillKeeps(s, n);
    case Enqueuing(g, event) => EnqueueKeepsMeasured(s.sink, event.(generation := g), s.popped);
  }

  // The health thread.

  lemma HealthConfigureKeepsFlow(s: Session, g: nat, point: Publish, c: Choice)
    requires Flow(s) && s.health == HealthConfiguring(g, point)
    ensures Flow(HealthConfigure(s, g, point, c))
  {
  }

  lemma HealthKeepsFlow(s: Session, c: Choice)
    requires Flow(s)
    ensures Flow(AdvanceHealth(s, c))
  {
    if s.health.HealthConfiguring? {
      HealthConfigureKeepsFlow(s, s.health.generation, s.health.publish, c);
    }
  }

  lemma HealthConfigureKeeps(s: Session, g: nat, point: Publish, c: Choice)
    requires Inv(s)
    ensures Keeps(s, HealthConfigure(s, g, point, c))
  {
    PublishCalms(s.sink, s.link.revision, g, point, c);
    CalmKeeps(s, HealthConfigure(s, g, point, c));
  }

  lemma HealthKeeps(s: Session, c: Choice)
    requires Inv(s)
    ensures Keeps(s, AdvanceHealth(s, c))
  {
    match s.health
    case HealthConfiguring(g, point) => HealthConfigureKeeps(s, g, point, c);
    case HealthEnqueuing(e) =>
      EnqueueCalms(s.sink, e);
      CalmKeeps(s, AdvanceHealth(s, c));
    case _ => StillKeeps(s, AdvanceHealth(s, c));
  }

  // The control operations.

  lemma ConnectKeepsFlow(s: Session, point: ConnectPoint, ok: bool, e: Event)
    requires Flow(s) && s.control == InConnect(point)
    ensures Flow(AdvanceConnect(s, point, ok, e))
  {
  }

  lemma DisconnectKeepsFlow(s: Session, point: DisconnectPoint, e: Event)
    requires Flow(s) && s.control == InDisconnect(point)
    ensures Flow(AdvanceDisconnect(s, point, e))
  {
  }

  lemma PauseKeepsFlow(s: Session, point: PausePoint, e: Event)
    requires Flow(s) && s.control == InPause(point)
    ensures Flow(AdvancePause(s, point, e))
  {
  }

  lemma ResumeKeepsFlow(s: Session, point: ResumePoint, ok: bool, e: Event)
    requires Flow(s) && s.control == InResume(point)
    ensures Flow(AdvanceResume(s, point, ok, e))
  {
  }

  lemma ControlKeepsFlow(s: Session, ok: bool, e: Event)
    requires Flow(s)
    ensures Flow(AdvanceControl(s, ok, e))
  {
    match s.control
    case Ready =>
    case InConnect(point) => ConnectKeepsFlow(s, point, ok, e);
    case InDisconnect(point) => DisconnectKeepsFlow(s, point, e);
    case InPause(point) => PauseKeepsFlow(s, point, e);
    case InResume(point) => ResumeKeepsFlow(s, point, ok, e);
  }

  lemma TellCalms(s: Session, e: Event)
    requires LeasesOrdered(s.sink)
    ensures Calms(s.sink, Tell(s, e))
  {
    if !e.IsMeasurement() {
      EnqueueCalms(s.sink, e.(generation := s.link.generation));
    }
  }

  lemma RetainCalms(k: Sink, generation: nat)
    requires LeasesOrdered(k)
    ensures Calms(k, Retain(k, generation))
  {
    FilterCalms(k, InGeneration(generation));
  }

  lemma ConnectCalms(s: Session, point: ConnectPoint, ok: bool, e: Event)
    requires LeasesOrdered(s.sink)
    ensures Calms(s.sink, AdvanceConnect(s, point, ok, e).sink)
  {
    match point
    case CBegin =>
    case CRetain => RetainCalms(s.sink, s.link.generation);
    case CLease => BeginCalms(s.sink, ok);
    case _ => TellCalms(s, e);
  }

  lemma ConnectKeeps(s: Session, point: ConnectPoint, ok: bool, e: Event)
    requires Inv(s) && s.control == InConnect(point)
    ensures Keeps(s, AdvanceConnect(s, point, ok, e))
  {
    ConnectCalms(s, point, ok, e);
    CalmKeeps(s, AdvanceConnect(s, point, ok, e));
  }

  lemma DisconnectKeeps(s: Session, point: DisconnectPoint, e: Event)
    requires Inv(s) && s.control == InDisconnect(point)
    ensures Keeps(s, AdvanceDisconnect(s, point, e))
  {
    if point.DRevoke? {
      RevokeKills(s.sink, s.popped, s.revoked);
    } else {
      match point {
        case DPurge => FilterCalms(s.sink, NotMeasuring(s.link.generation));
        case DJoin => TellCalms(s, e);
        case DReturn => TellCalms(s, e);
        case _ =>
      }
      CalmKeeps(s, AdvanceDisconnect(s, point, e));
    }
  }

  lemma PauseKeeps(s: Session, point: PausePoint, e: Event)
    requires Inv(s) && s.control == InPause(point)
    ensures Keeps(s, AdvancePause(s, point, e))
  {
    if point.PRevoke? {
      RevokeKills(s.sink, s.popped, s.revoked);
    } else {
      match point {
        case PPurge => FilterCalms(s.sink, NotMeasuring(s.link.generation));
        case PReturn => TellCalms(s, e);
        case _ =>
      }
      CalmKeeps(s, AdvancePause(s, point, e));
    }
  }

  lemma ResumeKeeps(s: Session, point: ResumePoint, ok: bool, e: Event)
    requires Inv(s) && s.control == InResume(point)
    ensures Keeps(s, AdvanceResume(s, point, ok, e))
  {
    match point
    case RBegin =>
    case RLease => BeginCalms(s.sink, ok);
    case RCommit => TellCalms(s, e);
    CalmKeeps(s, AdvanceResume(s, point, ok, e));
  }

  lemma ControlKeeps(s: Session, ok: bool, e: Event)
    requires Inv(s)
    ensures Keeps(s, AdvanceControl(s, ok, e))
  {
    match s.control
    case Ready => StillKeeps(s, s);
    case InConnect(point) => ConnectKeeps(s, point, ok, e);
    case InDisconnect(point) => DisconnectKeeps(s, point, e);
    case InPause(point) => PauseKeeps(s, point, e);
    case InResume(point) => ResumeKeeps(s, point, ok, e);
  }

  // Every step.

  lemma PopKeeps(s: Session)
    requires Inv(s)
    ensures Keeps(s, Next(s, Pop))
  {
  }

  lemma StepKeepsFlow(s: Session, step: Step)
    requires Flow(s)
    ensures Flow(Next(s, step))
  {
    match step
    case Admit(id, generation) => AdmitKeepsFlow(s, id, generation);
    case Advance(id, choice) => if id in s.callbacks { CallbackKeepsFlow(s, id, choice); }
    case Health(choice) => HealthKeepsFlow(s, choice);
    case Control(ok, event) => ControlKeepsFlow(s, ok, event);
    case _ =>
  }

  lemma StepKeeps(s: Session, step: Step)
    requires Inv(s)
    ensures Keeps(s, Next(s, step))
  {
    match step
    case Admit(id, generation) => StillKeeps(s, Next(s, step));
    case Advance(id, choice) =>
      if id in s.callbacks { CallbackKeeps(s, id, choice); } else { StillKeeps(s, s); }
    case Health(choice) => HealthKeeps(s, choice);
    case Issue(command) => StillKeeps(s, Next(s, step));
    case Control(ok, event) => ControlKeeps(s, ok, event);
    case Pop => PopKeeps(s);
    case Test(index) => StillKeeps(s, Next(s, step));
    case Write => StillKeeps(s, Next(s, step));
    case FinishSink => FinishCalms(s.sink); CalmKeeps(s, Next(s, step));
    case CloseSink => CloseCalms(s.sink); CalmKeeps(s, Next(s, step));
  }

  lemma StepKeepsInv(s: Session, step: Step)
    requires Inv(s)
    ensures Inv(Next(s, step)) && Fades(s.sink, Next(s, step).sink)
  {
    StepKeepsFlow(s, step);
    StepKeeps(s, step);
  }

  // Runs.

  const NO_LEASE := Sink(Queue([], 0), [Lease(0, false)], 0, false, false)

  const INITIAL :=
    Session(NO_LEASE, Link(Connection.Disconnected, false, 0, false, 0, 0, false), Free, map[],
            Polling, Ready, [], Consumer(None, []), true, false)

  lemma InitialInv()
    ensures Inv(INITIAL)
  {
  }

  function Run(s: Session, steps: seq<Step>): Session
    decreases |steps|
  {
    if steps == [] then s else Run(Next(s, steps[0]), steps[1..])
  }

  lemma {:induction false} RunKeepsInv(s: Session, steps: seq<Step>)
    requires Inv(s)
    ensures Inv(Run(s, steps)) && Fades(s.sink, Run(s, steps).sink)
    decreases |steps|
  {
    if steps != [] {
      StepKeepsInv(s, steps[0]);
      RunKeepsInv(Next(s, steps[0]), steps[1..]);
    }
  }

  /** In every run epochs strictly increase, at most one lease is valid, and a lease that
      has become invalid stays invalid. */
  lemma LeasesOnlyFade(before: seq<Step>, after: seq<Step>, lease: nat)
    requires lease < |Run(INITIAL, before).sink.leases|
    ensures var s, s' := Run(INITIAL, before), Run(Run(INITIAL, before), after);
            && LeasesOrdered(s'.sink)
            && lease < |s'.sink.leases|
            && s'.sink.leases[lease].epoch == s.sink.leases[lease].epoch
            && (!s.sink.leases[lease].valid ==> !s'.sink.leases[lease].valid)
  {
    InitialInv();
    RunKeepsInv(INITIAL, before);
    RunKeepsInv(Run(INITIAL, before), after);
  }

  /** Once set_paused(true) or disconnect() has returned, and until another callback is
      admitted, no measurement is deliverable, be it queued or already popped, whatever
      leases the health thread starts in the meantime. */
  lemma QuietMeansSilent(steps: seq<Step>)
    requires Run(INITIAL, steps).quiet
    ensures var s := Run(INITIAL, steps);
            && (forall e <- s.sink.queue.events :: e.IsMeasurement() ==> !Deliverable(s.sink, e))
            && (forall e <- s.popped :: e.IsMeasurement() ==> !Deliverable(s.sink, e))
            && s.link.active == 0
  {
    InitialInv();
    RunKeepsInv(INITIAL, steps);
  }

  function Measurements(events: seq<Event>): seq<Event> {
    Sequences.Filter(events, (e: Event) => e.IsMeasurement())
  }

  function InHand(c: Consumer): seq<Event> {
    if c.hand.None? then [] else [c.hand.value]
  }

  /** Either nothing changed in what is written and in hand, counting measurements only,
      or the one in hand, if there was one, has been written. */
  predicate AtMostInHand(before: Consumer, after: Consumer) {
    || (Measurements(after.written) == Measurements(before.written) &&
        Measurements(InHand(after)) == Measurements(InHand(before)))
    || (Measurements(after.written) == Measurements(before.written) + Measurements(InHand(before)) &&
        Measurements(InHand(after)) == [])
  }

  lemma QuietTest(c: Consumer, e: Event)
    requires c.hand.None? && !e.IsMeasurement()
    ensures AtMostInHand(c, Consumer(Some(e), c.written))
  {
  }

  lemma WritePassed(c: Consumer)
    requires c.hand.Some?
    ensures AtMostInHand(c, Consumer(None, c.written + [c.hand.value]))
  {
    Sequences.FilterSnoc(c.written, c.hand.value, (e: Event) => e.IsMeasurement());
    assert InHand(c)[1..] == [];
  }

  lemma QuietTests(s: Session, step: Step)
    requires Inv(s) && s.quiet
    ensures AtMostInHand(s.consumer, Next(s, step).consumer)
  {
    if step.Test? && s.consumer.hand.None? && step.index < |s.popped| {
      assert s.popped[step.index] in s.popped;
      if Deliverable(s.sink, s.popped[step.index]) {
        QuietTest(s.consumer, s.popped[step.index]);
      }
    } else if step.Write? && s.consumer.hand.Some? {
      WritePassed(s.consumer);
    } else {
      assert Next(s, step).consumer == s.consumer;
    }
  }

  predicate Admits(s: Session, step: Step) {
    step.Admit? && s.owner.Free? && step.id !in s.callbacks &&
    step.callbackGeneration == s.link.generation && s.link.accepting
  }

  predicate NoAdmission(s: Session, steps: seq<Step>)
    decreases |steps|
  {
    steps == [] || (!Admits(s, steps[0]) && NoAdmission(Next(s, steps[0]), steps[1..]))
  }

  lemma QuietStays(s: Session, step: Step)
    requires Inv(s) && s.quiet && !Admits(s, step)
    ensures Next(s, step).quiet
  {
    match step
    case Advance(id, choice) => if id in s.callbacks { CallbackActive(s, id); assert false; }
    case _ =>
  }

  lemma InHandThen(a: Consumer, b: Consumer, c: Consumer)
    requires AtMostInHand(a, b) && AtMostInHand(b, c)
    ensures AtMostInHand(a, c)
  {
  }

  /** From such a return on, a run without an admission lets no measurement pass its test:
      it writes at most the one that had passed before the return. */
  lemma {:induction false} NothingDeliveredWhileQuiet(s: Session, steps: seq<Step>)
    requires Inv(s) && s.quiet && NoAdmission(s, steps)
    ensures Run(s, steps).quiet
    ensures AtMostInHand(s.consumer, Run(s, steps).consumer)
    decreases |steps|
  {
    if steps != [] {
      var n := Next(s, steps[0]);
      StepKeepsInv(s, steps[0]);
      QuietStays(s, steps[0]);
      QuietTests(s, steps[0]);
      NothingDeliveredWhileQuiet(n, steps[1..]);
      InHandThen(s.consumer, n.consumer, Run(n, steps[1..]).consumer);
    }
  }

  // A frame that has passed its test can outlive the pause.

  const SAMPLE := Event(1, Sample, 0, 0, None)

  const HELD := SAMPLE.(lease := Some(1))

  const CONTROL := Step.Control(true, SAMPLE)

  function Callback(done: bool): Step { Advance(0, Choice(false, true, done, Streaming, 0, SAMPLE)) }

  /** connect() has its lease. */
  const LEASED :=
    Session(Sink(Queue([], 0), [Lease(0, false), Lease(1, true)], 1, false, false),
            Link(Connecting, false, 1, true, 0, 0, false), Free, map[],
            Polling, InConnect(CClient), [], Consumer(None, []), true, false)

  /** The first sample is about to be published. */
  const SAMPLED :=
    LEASED.(link := Link(Streaming, false, 1, true, 1, 0, true), control := Ready,
            callbacks := map[0 := Enqueuing(1, SAMPLE)], revoked := false)

  /** It has been published and popped, and has passed its test. */
  const PASSED :=
    SAMPLED.(link := Link(Streaming, false, 1, true, 0, 0, true), callbacks := map[],
             popped := [HELD], consumer := Consumer(Some(HELD), []))

  /** set_paused(true) has revoked the lease. */
  const REVOKED :=
    PASSED.(sink := Revoke(PASSED.sink), link := Link(Streaming, false, 1, false, 0, 0, true),
            control := InPause(PPurge), revoked := true)

  /** It has returned. */
  const PAUSED :=
    REVOKED.(link := Link(Streaming, true, 1, false, 0, 0, true), control := Ready, quiet := true)

  lemma {:induction false} RunConcat(s: Session, a: seq<Step>, b: seq<Step>)
    ensures Run(s, a + b) == Run(Run(s, a), b)
    decreases |a|
  {
    if a == [] {
      assert a + b == b;
    } else {
      assert (a + b)[1..] == a[1..] + b;
      RunConcat(Next(s, a[0]), a[1..], b);
    }
  }

  lemma RunTwo(s: Session, a: Step, b: Step)
    ensures Run(s, [a, b]) == Next(Next(s, a), b)
  {
    assert [a, b][1..] == [b] && [b][1..] == [];
    assert Run(Next(s, a), [b]) == Next(Next(s, a), b);
  }

  lemma RunThree(s: Session, a: Step, b: Step, c: Step)
    ensures Run(s, [a, b, c]) == Next(Next(Next(s, a), b), c)
  {
    assert [a, b, c][1..] == [b, c];
    RunTwo(Next(s, a), b, c);
  }

  lemma RunFour(s: Session, a: Step, b: Step, c: Step, d: Step)
    ensures Run(s, [a, b, c, d]) == Next(Next(Next(Next(s, a), b), c), d)
  {
    assert [a, b, c, d][1..] == [b, c, d];
    RunThree(Next(s, a), b, c, d);
  }

  lemma Connects()
    ensures Run(INITIAL, [Issue(Connect), CONTROL, CONTROL, CONTROL]) == LEASED
  {
    RunFour(INITIAL, Issue(Connect), CONTROL, CONTROL, CONTROL);
    var s := Next(Next(INITIAL, Issue(Connect)), CONTROL);
    assert s == INITIAL.(link := Link(Connecting, false, 1, true, 0, 0, false), control := InConnect(CRetain));
    var t := Next(s, CONTROL);
    assert t == s.(control := InConnect(CLease));
    assert Next(t, CONTROL).sink == LEASED.sink;
  }

  lemma Samples()
    ensures Run(LEASED, [CONTROL, Admit(0, 1), Callback(false), Callback(false)]) == SAMPLED
  {
    RunFour(LEASED, CONTROL, Admit(0, 1), Callback(false), Callback(false));
    var s := Next(Next(LEASED, CONTROL), Admit(0, 1));
    assert s == SAMPLED.(link := Link(Connecting, false, 1, true, 1, 0, true), callbacks := map[0 := Working(1)]);
    assert Next(s, Callback(false)) == SAMPLED.(callbacks := map[0 := Publishing(1)]);
  }

  const QUEUED := SAMPLED.sink.(queue := Queue([HELD], 0))

  lemma Enqueues()
    ensures Next(SAMPLED, Callback(false)) == SAMPLED.(sink := QUEUED, callbacks := map[0 := Publishing(1)])
  {
    assert Pushed(Queue([], 0), HELD) == Queue([HELD], 0);
  }

  lemma Tests()
    ensures Run(SAMPLED, [Callback(false), Callback(true), Pop, Test(0)]) == PASSED
  {
    RunFour(SAMPLED, Callback(false), Callback(true), Pop, Test(0));
    Enqueues();
    var s := SAMPLED.(sink := QUEUED, callbacks := map[0 := Publishing(1)]);
    var t := Next(s, Callback(true));
    assert map[0 := Publishing(1)] - {0} == map[];
    assert t == PASSED.(sink := QUEUED, popped := [], consumer := Consumer(None, []));
    assert Next(t, Pop) == PASSED.(consumer := Consumer(None, []));
  }

  lemma Revokes()
    ensures Run(PASSED, [Issue(Command.Pause), CONTROL, CONTROL, CONTROL]) == REVOKED
  {
    RunFour(PASSED, Issue(Command.Pause), CONTROL, CONTROL, CONTROL);
    var s := Next(Next(PASSED, Issue(Command.Pause)), CONTROL);
    assert s == PASSED.(link := REVOKED.link, control := InPause(PAwait));
    assert Next(s, CONTROL) == s.(control := InPause(PRevoke));
  }

  lemma Returns()
    ensures Run(REVOKED, [CONTROL, CONTROL, CONTROL]) == PAUSED
  {
    RunThree(REVOKED, CONTROL, CONTROL, CONTROL);
    assert Next(REVOKED, CONTROL) == REVOKED.(control := InPause(PCommit));
  }

  lemma RunThen(s: Session, a: seq<Step>, t: Session, b: seq<Step>, u: Session)
    requires Run(s, a) == t && Run(t, b) == u
    ensures Run(s, a + b) == u
  {
    RunConcat(s, a, b);
  }

  lemma WritesPaused()
    ensures PAUSED.quiet && PAUSED.link.paused
    ensures Next(PAUSED, Write).consumer.written == PAUSED.consumer.written + [HELD]
  {
  }

  lemma ReachPassed()
    ensures exists steps :: Run(INITIAL, steps) == PASSED
  {
    var steps := [Issue(Connect), CONTROL, CONTROL, CONTROL];
    Connects();
    Samples();
    RunThen(INITIAL, steps, LEASED, [CONTROL, Admit(0, 1), Callback(false), Callback(false)], SAMPLED);
    steps := steps + [CONTROL, Admit(0, 1), Callback(false), Callback(false)];
    Tests();
    RunThen(INITIAL, steps, SAMPLED, [Callback(false), Callback(true), Pop, Test(0)], PASSED);
  }

  /** A run in which set_paused(true) has returned and a measurement of its generation is
      then written. */
  lemma PassedOutlivesPause()
    ensures exists steps ::
              var s := Run(INITIAL, steps);
              s.quiet && s.link.paused && Next(s, Write).consumer.written == s.consumer.written + [HELD]
  {
    ReachPassed();
    var steps :| Run(INITIAL, steps) == PASSED;
    Revokes();
    RunThen(INITIAL, steps, PASSED, [Issue(Command.Pause), CONTROL, CONTROL, CONTROL], REVOKED);
    steps := steps + [Issue(Command.Pause), CONTROL, CONTROL, CONTROL];
    Returns();
    RunThen(INITIAL, steps, REVOKED, [CONTROL, CONTROL, CONTROL], PAUSED);
    WritesPaused();
  }

  /** The return itself: it is reached only with the barrier passed. */
  lemma ReturnsQuiet(s: Session, e: Event)
    requires Inv(s) && (s.control == InPause(PReturn) || s.control == InDisconnect(DReturn))
    ensures AdvanceControl(s, true, e).quiet && AdvanceControl(s, true, e).control.Ready?
    ensures !s.link.accepting && s.link.active == 0
  {
  }

  /** Pausing again, or disconnecting twice, returns at once with the same guarantee. */
  lemma RepeatReturnsQuiet(s: Session, e: Event)
    requires Inv(s) && s.owner.Free?
    ensures s.control == InPause(PBegin) && s.link.state.Streaming? && s.link.paused ==>
              AdvancePause(s, PBegin, e).quiet && !s.link.accepting && s.link.active == 0
    ensures s.control == InDisconnect(DBegin) && s.link.state.Disconnected? ==>
              AdvanceDisconnect(s, DBegin, e).quiet && !s.link.accepting && s.link.active == 0
  {
  }
}
