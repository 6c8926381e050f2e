/** The session's measurement channel as a protocol: sample callbacks, the health thread,
    one control operation (connect, disconnect or set_paused) and the consumers of the
    event sink. A step is one section of the state mutex or the sink mutex, or one atomic
    access. Callbacks may arrive from any client, current or stale, at any time. */
module SessionProtocol {
  import opened Wrappers
  import opened SessionEventQueue
  import Sequences

  // The sink.

  datatype Lease = Lease(epoch: nat, valid: bool)

  type Leases = s: seq<Lease> | s != [] witness [Lease(0, false)]

  /** Every lease ever created, the current one last; events refer to them by index. */
  datatype Sink = Sink(
    queue: Queue, leases: Leases, nextEpoch: nat, finishing: bool, closed: bool)

  function Current(k: Sink): nat { |k.leases| - 1 }

  function Revoke(k: Sink): Sink {
    k.(leases := k.leases[Current(k) := k.leases[Current(k)].(valid := false)])
  }

  /** begin_measurements(); the allocation of the new lease may fail after its epoch has
      been taken. */
  function Begin(k: Sink, granted: bool): Sink {
    if k.closed || k.finishing then k
    else
      var revoked := Revoke(k).(nextEpoch := k.nextEpoch + 1);
      if granted then revoked.(leases := revoked.leases + [Lease(k.nextEpoch + 1, true)]) else revoked
  }

  function Enqueue(k: Sink, e: Event): Sink {
    if k.closed || k.finishing then k
    else if !e.IsMeasurement() then k.(queue := Pushed(k.queue, e.(lease := None)))
    else if !k.leases[Current(k)].valid then k
    else k.(queue := Pushed(k.queue, e.(lease := Some(Current(k)))))
  }

  function Purge(k: Sink, generation: nat): Sink {
    k.(queue := k.queue.(events := Sequences.Filter(k.queue.events, NotMeasuring(generation))))
  }

  function Retain(k: Sink, generation: nat): Sink {
    if k.closed || k.finishing then k
    else k.(queue := k.queue.(events := Sequences.Filter(k.queue.events, InGeneration(generation))))
  }

  function Finish(k: Sink): Sink {
    if k.closed || k.finishing then k else Purge(Revoke(k).(finishing := true), 0)
  }

  function Close(k: Sink): Sink {
    if k.closed then k
    else Revoke(k).(closed := true, finishing := true, queue := k.queue.(events := []))
  }

  /** SessionEvent::valid_for_delivery() */
  predicate Deliverable(k: Sink, e: Event) {
    !e.IsMeasurement() ||
    (e.lease.Some? && e.lease.value < |k.leases| && k.leases[e.lease.value].valid)
  }

  // The session.

  datatype Connection = Disconnected | Connecting | Streaming | Reconnecting | Disconnecting | Failed

  /** The fields guarded by the state mutex. */
  datatype Link = Link(
    state: Connection,
    paused: bool,
    generation: nat,
    accepting: bool,
    active: nat,
    revision: nat,
    healthRunning: bool)

  datatype Owner = Free | ByHealth | ByCallback(id: nat)

  /** publish_configuration_locked() */
  datatype Publish = PublishRevoke | PublishPurge | PublishBegin | PublishPush

  /** A callback between its admission and complete_callback(). */
  datatype Callback =
    | Working(generation: nat)
    | Configuring(generation: nat, publish: Publish)
    | Publishing(generation: nat)
    | Enqueuing(generation: nat, event: Event)

  datatype HealthThread =
    | Polling
    | HealthConfiguring(generation: nat, publish: Publish)
    | HealthPublishing(generation: nat)
    | HealthEnqueuing(event: Event)

  datatype Control =
    | Ready
    | InConnect(connect: ConnectPoint)
    | InDisconnect(disconnect: DisconnectPoint)
    | InPause(pause: PausePoint)
    | InResume(resume: ResumePoint)

  datatype ConnectPoint = CBegin | CRetain | CLease | CFail | CClient

  datatype DisconnectPoint = DBegin | DAwait | DRevoke | DPurge | DJoin | DCommit | DReturn

  datatype PausePoint = PBegin | PAwait | PRevoke | PPurge | PCommit | PReturn

  datatype ResumePoint = RBegin | RLease | RCommit

  /** The consumer of the sink: an event that has passed valid_for_delivery() is in hand
      until it is written, whatever becomes of its lease in between. */
  datatype Consumer = Consumer(hand: Option<Event>, written: seq<Event>)

  datatype Session = Session(
    sink: Sink,
    link: Link,
    owner: Owner,
    callbacks: map<nat, Callback>,
    health: HealthThread,
    control: Control,
    popped: seq<Event>,
    consumer: Consumer,
    // History: the control thread has revoked the lease since the last admission, and
    // set_paused(true) or disconnect() has returned since the last admission.
    revoked: bool,
    quiet: bool)

  datatype Command = Connect | Disconnect | Pause | Resume

  datatype Step =
    | Admit(id: nat, callbackGeneration: nat)
    | Advance(id: nat, choice: Choice)
    | Health(choice: Choice)
    | Issue(command: Command)
    | Control(ok: bool, event: Event)
    | Pop
    | Test(index: nat)
    | Write
    | FinishSink
    | CloseSink

  /** What the environment decides: which way a section goes, and what is published. */
  datatype Choice = Choice(publish: bool, ok: bool, done: bool, state: Connection, revision: nat, event: Event)

  function Next(s: Session, step: Step): Session {
    match step
    case Admit(id, generation) => AdmitCallback(s, id, generation)
    case Advance(id, choice) => if id in s.callbacks then AdvanceCallback(s, id, choice) else s
    case Health(choice) => AdvanceHealth(s, choice)
    case Issue(command) => if s.control.Ready? then s.(control := Entry(command)) else s
    case Control(ok, event) => AdvanceControl(s, ok, event)
    case Pop =>
      if s.sink.queue.events == [] || s.sink.closed then s
      else
        s.(popped := s.popped + [s.sink.queue.events[0]],
           sink := s.sink.(queue := s.sink.queue.(events := s.sink.queue.events[1..])))
    case Test(index) =>
      if s.consumer.hand.None? && index < |s.popped| && Deliverable(s.sink, s.popped[index])
      then s.(consumer := s.consumer.(hand := Some(s.popped[index])))
      else s
    case Write =>
      if s.consumer.hand.None? then s
      else s.(consumer := Consumer(None, s.consumer.written + [s.consumer.hand.value]))
    case FinishSink => s.(sink := Finish(s.sink))
    case CloseSink => s.(sink := Close(s.sink))
  }

  function Entry(command: Command): Control {
    match command
    case Connect => InConnect(CBegin)
    case Disconnect => InDisconnect(DBegin)
    case Pause => InPause(PBegin)
    case Resume => InResume(RBegin)
  }

  /** The first section of sample_received(). */
  function AdmitCallback(s: Session, id: nat, generation: nat): Session {
    if !s.owner.Free? || id in s.callbacks || generation != s.link.generation || !s.link.accepting
    then s
    else
      s.(link := s.link.(active := s.link.active + 1),
         callbacks := s.callbacks[id := Working(generation)],
         revoked := false,
         quiet := false)
  }

  function FirstPublish(revision: nat): Publish { if revision != 0 then PublishRevoke else PublishPush }

  function AdvanceCallback(s: Session, id: nat, c: Choice): Session
    requires id in s.callbacks
  {
    match s.callbacks[id]
    case Working(g) => Record(s, id, g, c)
    case Configuring(g, point) => Configure(s, id, g, point, c)
    case Publishing(g) =>
      if c.done then (if s.owner.Free? then Complete(s, id) else s)
      else if g == s.link.generation then Move(s, id, Enqueuing(g, c.event))
      else s
    case Enqueuing(g, event) =>
      Move(s.(sink := Enqueue(s.sink, event.(generation := g))), id, Publishing(g))
  }

  function Move(s: Session, id: nat, next: Callback): Session {
    s.(callbacks := s.callbacks[id := next])
  }

  /** The second section: the sample becomes the latest one and may bring a configuration. */
  function Record(s: Session, id: nat, g: nat, c: Choice): Session {
    if !s.owner.Free? then s
    else if c.done then Complete(s, id)
    else if g != s.link.generation || !s.link.accepting then Move(s, id, Publishing(g))
    else if c.publish then
      Move(s.(owner := ByCallback(id)), id, Configuring(g, FirstPublish(s.link.revision)))
    else Move(s.(link := s.link.(state := Streaming)), id, Publishing(g))
  }

  function Configure(s: Session, id: nat, g: nat, point: Publish, c: Choice): Session {
    var (sink, revision, next) := PublishConfiguration(s.sink, s.link.revision, g, point, c);
    if next.Some? then
      Move(s.(sink := sink, link := s.link.(revision := revision)), id, Configuring(g, next.value))
    else
      Move(s.(sink := sink, link := s.link.(revision := revision, state := Streaming), owner := Free),
           id, Publishing(g))
  }

  /** complete_callback() */
  function Complete(s: Session, id: nat): Session {
    s.(link := s.link.(active := if s.link.active > 0 then s.link.active - 1 else 0),
       callbacks := s.callbacks - {id})
  }

  /** One sink section of publish_configuration_locked(); the state mutex is held. */
  function PublishConfiguration(k: Sink, revision: nat, generation: nat, point: Publish, c: Choice)
    : (Sink, nat, Option<Publish>) {
    match point
    case PublishRevoke => (Revoke(k), revision, Some(PublishPurge))
    case PublishPurge => (Purge(k, generation), revision, Some(PublishBegin))
    case PublishBegin =>
      (Begin(k, c.ok), revision, if c.ok && !k.closed && !k.finishing then Some(PublishPush) else None)
    case PublishPush =>
      (Enqueue(k, Event(generation, Configuration, c.event.body, 0, None)), c.revision, None)
  }

  /** publish_health() */
  function AdvanceHealth(s: Session, c: Choice): Session {
    match s.health
    case Polling => Poll(s, c)
    case HealthConfiguring(g, point) => HealthConfigure(s, g, point, c)
    case HealthPublishing(g) =>
      if c.done then s.(health := Polling)
      else if g != s.link.generation || c.event.IsMeasurement() then s
      else s.(health := HealthEnqueuing(c.event.(generation := g)))
    case HealthEnqueuing(event) =>
      s.(sink := Enqueue(s.sink, event), health := HealthPublishing(event.generation))
  }

  function Poll(s: Session, c: Choice): Session {
    if !s.owner.Free? || !s.link.healthRunning then s
    else if c.publish then
      s.(owner := ByHealth, health := HealthConfiguring(s.link.generation, FirstPublish(s.link.revision)))
    else
      s.(link := s.link.(state := Mapped(s.link.state, c.state)), health := HealthPublishing(s.link.generation))
  }

  function HealthConfigure(s: Session, g: nat, point: Publish, c: Choice): Session {
    var (sink, revision, next) := PublishConfiguration(s.sink, s.link.revision, g, point, c);
    if next.Some? then
      s.(sink := sink, link := s.link.(revision := revision), health := HealthConfiguring(g, next.value))
    else
      s.(sink := sink, link := s.link.(revision := revision, state := Mapped(s.link.state, c.state)),
         owner := Free, health := HealthPublishing(g))
  }

  /** The poll never leaves Disconnecting and never reports Disconnected. */
  function Mapped(state: Connection, polled: Connection): Connection {
    if state.Disconnecting? then Disconnecting
    else if polled.Disconnected? || polled.Disconnecting? then Failed
    else polled
  }

  /** A control thread publishes only events that are not measurements. */
  function Tell(s: Session, e: Event): Sink {
    if e.IsMeasurement() then s.sink else Enqueue(s.sink, e.(generation := s.link.generation))
  }

  function AdvanceControl(s: Session, ok: bool, e: Event): Session {
    match s.control
    case Ready => s
    case InConnect(point) => AdvanceConnect(s, point, ok, e)
    case InDisconnect(point) => AdvanceDisconnect(s, point, e)
    case InPause(point) => AdvancePause(s, point, e)
    case InResume(point) => AdvanceResume(s, point, ok, e)
  }

  function AdvanceConnect(s: Session, point: ConnectPoint, ok: bool, e: Event): Session {
    match point
    case CBegin =>
      if !s.owner.Free? then s
      else if !s.link.state.Disconnected? then s.(control := Ready)
      else
        s.(link := s.link.(state := Connecting, paused := false, generation := s.link.generation + 1,
                           accepting := true, revision := 0),
           control := InConnect(CRetain))
    case CRetain => s.(sink := Retain(s.sink, s.link.generation), control := InConnect(CLease))
    case CLease =>
      s.(sink := Begin(s.sink, ok),
         control := InConnect(if ok && !s.sink.closed && !s.sink.finishing then CClient else CFail))
    case CFail =>
      if !s.owner.Free? then s
      else s.(link := s.link.(accepting := false, state := Failed), sink := Tell(s, e), control := Ready)
    case CClient =>
      if ok then s.(link := s.link.(healthRunning := true), sink := Tell(s, e), control := Ready)
      else s.(control := InConnect(CFail))
  }

  function AdvanceDisconnect(s: Session, point: DisconnectPoint, e: Event): Session {
    match point
    case DBegin =>
      if !s.owner.Free? then s
      else if s.link.state.Disconnected? then s.(quiet := true, control := Ready)
      else
        s.(link := s.link.(accepting := false, state := Disconnecting, paused := false),
           control := InDisconnect(DAwait))
    case DAwait =>
      if s.owner.Free? && s.link.active == 0 then s.(control := InDisconnect(DRevoke)) else s
    case DRevoke => s.(sink := Revoke(s.sink), revoked := true, control := InDisconnect(DPurge))
    case DPurge => s.(sink := Purge(s.sink, s.link.generation), control := InDisconnect(DJoin))
    case DJoin =>
      if s.health.Polling? then
        s.(link := s.link.(healthRunning := false), sink := Tell(s, e), control := InDisconnect(DCommit))
      else s.(sink := Tell(s, e))
    case DCommit =>
      if !s.owner.Free? then s
      else s.(link := s.link.(state := Disconnected, paused := false), control := InDisconnect(DReturn))
    case DReturn => s.(sink := Tell(s, e), quiet := true, control := Ready)
  }

  function AdvancePause(s: Session, point: PausePoint, e: Event): Session {
    match point
    case PBegin =>
      if !s.owner.Free? then s
      else if !s.link.state.Streaming? then s.(control := Ready)
      else if s.link.paused then s.(quiet := true, control := Ready)
      else s.(link := s.link.(accepting := false), control := InPause(PAwait))
    case PAwait =>
      if s.owner.Free? && s.link.active == 0 then s.(control := InPause(PRevoke)) else s
    case PRevoke => s.(sink := Revoke(s.sink), revoked := true, control := InPause(PPurge))
    case PPurge => s.(sink := Purge(s.sink, s.link.generation), control := InPause(PCommit))
    case PCommit =>
      if !s.owner.Free? then s
      else s.(link := s.link.(paused := true), control := InPause(PReturn))
    case PReturn => s.(sink := Tell(s, e), quiet := true, control := Ready)
  }

  function AdvanceResume(s: Session, point: ResumePoint, ok: bool, e: Event): Session {
    match point
    case RBegin =>
      if !s.owner.Free? then s
      else if !s.link.state.Streaming? || !s.link.paused then s.(control := Ready)
      else s.(control := InResume(RLease))
    case RLease =>
      s.(sink := Begin(s.sink, ok),
         control := if ok && !s.sink.closed && !s.sink.finishing then InResume(RCommit) else Ready)
    case RCommit =>
      if !s.owner.Free? then s
      else s.(link := s.link.(paused := false, accepting := true), sink := Tell(s, e), control := Ready)
  }
}
