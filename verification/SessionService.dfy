/** What the session is for: it refuses samples only for a cause, and from a resume or a connect
    on the next sample is admitted, queued with a valid lease, and written. */
module SessionService {
  import opened Wrappers
  import opened SessionEventQueue
  import opened SessionProtocol
  import opened SessionTheorems
  import Sequences

  // Who holds the state mutex across the steps of a published configuration.

  ghost predicate Owned(s: Session) {
    && (s.owner.ByHealth? <==> s.health.HealthConfiguring?)
    && (s.owner.ByCallback? ==> s.owner.id in s.callbacks && s.callbacks[s.owner.id].Configuring?)
    && (forall id <- s.callbacks :: s.callbacks[id].Configuring? ==> s.owner == ByCallback(id))
  }

  predicate DuringPause(c: Control) { c.InPause? && !c.pause.PBegin? }

  /** Why a session takes no samples. */
  predicate Refuses(link: Link, control: Control) {
    || link.paused
    || link.state.Disconnected? || link.state.Disconnecting?
    || (link.state.Failed? && !link.healthRunning)
    || DuringPause(control)
  }

  predicate DuringConnect(c: Control) { c.InConnect? && !c.connect.CBegin? }

  /** The health thread runs from the end of connect() to the join in disconnect(). */
  predicate HealthKnown(link: Link, health: HealthThread, control: Control) {
    && (!health.Polling? || link.paused || DuringPause(control) ==> link.healthRunning)
    && (link.accepting || link.state.Streaming? ==> link.healthRunning || DuringConnect(control))
    && (link.state.Disconnected? || DuringConnect(control) || control == InDisconnect(DCommit) ==> !link.healthRunning)
  }

  /** What is known about the link between the steps. */
  predicate Linked(link: Link, owner: Owner, health: HealthThread, control: Control) {
    && (link.accepting <==> !Refuses(link, control))
    && (owner.ByCallback? ==> link.accepting)
    && HealthKnown(link, health, control)
    && (link.state.Disconnecting? ==> control.InDisconnect?)
    && (DuringConnect(control) ==> link.accepting && (link.state.Connecting? || link.state.Streaming?))
    && (control.InDisconnect? && !control.disconnect.DBegin? && !control.disconnect.DReturn? ==>
        link.state.Disconnecting?)
    && (control == InDisconnect(DReturn) ==> link.state.Disconnected?)
    && (DuringPause(control) || link.paused ==> !link.state.Disconnected? && !link.state.Disconnecting?)
    && ((control.InResume? && !control.resume.RBegin?) || control == InPause(PReturn) ==> link.paused)
  }

  ghost predicate Ordered(s: Session) { Owned(s) && Linked(s.link, s.owner, s.health, s.control) }

  lemma AdmitKeepsOrder(s: Session, id: nat, generation: nat)
    requires Ordered(s)
    ensures Ordered(AdmitCallback(s, id, generation))
  {
  }

  lemma RecordKeepsOrder(s: Session, id: nat, g: nat, c: Choice)
    requires Ordered(s) && id in s.callbacks && s.callbacks[id] == Working(g)
    ensures Ordered(Record(s, id, g, c))
  {
  }

  lemma ConfigureKeepsOrder(s: Session, id: nat, g: nat, point: Publish, c: Choice)
    requires Ordered(s) && id in s.callbacks && s.callbacks[id] == Configuring(g, point)
    ensures Ordered(Configure(s, id, g, point, c))
  {
  }

  lemma PublishKeepsOrder(s: Session, id: nat, c: Choice)
    requires Ordered(s) && id in s.callbacks && (s.callbacks[id].Publishing? || s.callbacks[id].Enqueuing?)
    ensures Ordered(AdvanceCallback(s, id, c))
  {
  }

  lemma PollKeepsOrder(s: Session, c: Choice)
    requires Ordered(s) && s.health.Polling?
    ensures Ordered(Poll(s, c))
  {
  }

  lemma HealthConfigureKeepsOrder(s: Session, g: nat, point: Publish, c: Choice)
    requires Ordered(s) && s.health == HealthConfiguring(g, point)
    ensures Ordered(HealthConfigure(s, g, point, c))
  {
  }

  lemma HealthKeepsOrder(s: Session, c: Choice)
    requires Ordered(s)
    ensures Ordered(AdvanceHealth(s, c))
  {
    match s.health
    case Polling => PollKeepsOrder(s, c);
    case HealthConfiguring(g, point) => HealthConfigureKeepsOrder(s, g, point, c);
    case _ =>
  }

  lemma ConnectKeepsOrder(s: Session, point: ConnectPoint, ok: bool, e: Event)
    requires Ordered(s) && s.control == InConnect(point)
    ensures Ordered(AdvanceConnect(s, point, ok, e))
  {
  }

  lemma DisconnectKeepsOrder(s: Session, point: DisconnectPoint, e: Event)
    requires Ordered(s) && s.control == InDisconnect(point)
    ensures Ordered(AdvanceDisconnect(s, point, e))
  {
    if point.DBegin? || point.DAwait? || point.DCommit? {
      DisconnectLinkKeepsOrder(s, point, e);
    } else {
      DisconnectSinkKeepsOrder(s, point, e);
    }
  }

  lemma DisconnectLinkKeepsOrder(s: Session, point: DisconnectPoint, e: Event)
    requires Ordered(s) && s.control == InDisconnect(point) && (point.DBegin? || point.DAwait? || point.DCommit?)
    ensures Ordered(AdvanceDisconnect(s, point, e))
  {
  }

  lemma DisconnectSinkKeepsOrder(s: Session, point: DisconnectPoint, e: Event)
    requires Ordered(s) && s.control == InDisconnect(point) && !point.DBegin? && !point.DAwait? && !point.DCommit?
    ensures Ordered(AdvanceDisconnect(s, point, e))
  {
  }

  lemma PauseKeepsOrder(s: Session, point: PausePoint, e: Event)
    requires Ordered(s) && s.control == InPause(point)
    ensures Ordered(AdvancePause(s, point, e))
  {
  }

  lemma ResumeKeepsOrder(s: Session, point: ResumePoint, ok: bool, e: Event)
    requires Ordered(s) && s.control == InResume(point)
    ensures Ordered(AdvanceResume(s, point, ok, e))
  {
  }

  lemma CallbackKeepsOrder(s: Session, id: nat, c: Choice)
    requires Ordered(s) && id in s.callbacks
    ensures Ordered(AdvanceCallback(s, id, c))
  {
    match s.callbacks[id]
    case Working(g) => RecordKeepsOrder(s, id, g, c);
    case Configuring(g, point) => ConfigureKeepsOrder(s, id, g, point, c);
    case _ => PublishKeepsOrder(s, id, c);
  }

  lemma ControlKeepsOrder(s: Session, ok: bool, e: Event)
    requires Ordered(s)
    ensures Ordered(AdvanceControl(s, ok, e))
  {
    match s.control
    case Ready =>
    case InConnect(point) => ConnectKeepsOrder(s, point, ok, e);
    case InDisconnect(point) => DisconnectKeepsOrder(s, point, e);
    case InPause(point) => PauseKeepsOrder(s, point, e);
    case InResume(point) => ResumeKeepsOrder(s, point, ok, e);
  }

  lemma StepKeepsOrder(s: Session, step: Step)
    requires Ordered(s)
    ensures Ordered(Next(s, step))
  {
    match step
    case Admit(id, generation) => AdmitKeepsOrder(s, id, generation);
    case Advance(id, choice) => if id in s.callbacks { CallbackKeepsOrder(s, id, choice); }
    case Health(choice) => HealthKeepsOrder(s, choice);
    case Control(ok, event) => ControlKeepsOrder(s, ok, event);
    case _ =>
  }

  lemma {:induction false} RunKeepsOrder(s: Session, steps: seq<Step>)
    requires Ordered(s)
    ensures Ordered(Run(s, steps))
    decreases |steps|
  {
    if steps != [] {
      StepKeepsOrder(s, steps[0]);
      RunKeepsOrder(Next(s, steps[0]), steps[1..]);
    }
  }

  /** In every run the session takes samples if and only if none of the causes holds: it is
      paused or on its way there, disconnected or on its way there, or failed to connect. */
  lemma AcceptsExactly(steps: seq<Step>)
    ensures var s := Run(INITIAL, steps); s.link.accepting <==> !Refuses(s.link, s.control)
  {
    RunKeepsOrder(INITIAL, steps);
  }

  // The lease.

  /** No lease could not be created, and the client always started. */
  predicate Granted(step: Step) {
    match step
    case Advance(_, choice) => choice.ok
    case Health(choice) => choice.ok
    case Control(ok, _) => ok
    case _ => true
  }

  predicate AllGranted(steps: seq<Step>) { forall step <- steps :: Granted(step) }

  predicate Between(point: Publish) { point.PublishPurge? || point.PublishBegin? }

  /** A configuration is being published: the old lease is revoked and the new one not begun. */
  predicate Interim(owner: Owner, health: HealthThread, callbacks: map<nat, Callback>) {
    match owner
    case Free => false
    case ByHealth => health.HealthConfiguring? && Between(health.publish)
    case ByCallback(id) => id in callbacks && callbacks[id].Configuring? && Between(callbacks[id].publish)
  }

  /** Samples are taken, or about to be, and the connection has had its first lease. */
  predicate Serving(link: Link, control: Control) {
    (link.accepting && control != InConnect(CRetain) && control != InConnect(CLease)) || control == InResume(RCommit)
  }

  predicate Open(k: Sink) { !k.closed && !k.finishing }

  predicate Leased(s: Session) {
    Open(s.sink) && Serving(s.link, s.control) && !Interim(s.owner, s.health, s.callbacks) ==>
      s.sink.leases[Current(s.sink)].valid
  }

  lemma PublishLease(k: Sink, revision: nat, g: nat, point: Publish, c: Choice)
    requires c.ok
    ensures var (n, _, next) := PublishConfiguration(k, revision, g, point, c);
            && (Open(n) ==> Open(k))
            && (Open(n) && point.PublishBegin? ==> n.leases[Current(n)].valid && next == Some(PublishPush))
            && (point.PublishRevoke? || point.PublishPurge? ==> next.Some? && Between(next.value))
            && (point.PublishPush? ==> next.None? && n.leases == k.leases)
  {
  }

  lemma RecordKeepsLease(s: Session, id: nat, g: nat, c: Choice)
    requires Ordered(s) && Leased(s) && id in s.callbacks && s.callbacks[id] == Working(g)
    ensures Leased(Record(s, id, g, c))
  {
  }

  lemma ConfigureKeepsLease(s: Session, id: nat, g: nat, point: Publish, c: Choice)
    requires Ordered(s) && Leased(s) && id in s.callbacks && s.callbacks[id] == Configuring(g, point) && c.ok
    ensures Leased(Configure(s, id, g, point, c))
  {
    PublishLease(s.sink, s.link.revision, g, point, c);
  }

  lemma EnqueueKeepsLeases(k: Sink, e: Event)
    ensures Enqueue(k, e).leases == k.leases && (Open(Enqueue(k, e)) ==> Open(k))
  {
  }

  lemma PublishKeepsLease(s: Session, id: nat, c: Choice)
    requires Ordered(s) && Leased(s) && id in s.callbacks && (s.callbacks[id].Publishing? || s.callbacks[id].Enqueuing?)
    ensures Leased(AdvanceCallback(s, id, c))
  {
    if s.callbacks[id].Enqueuing? {
      EnqueueKeepsLeases(s.sink, s.callbacks[id].event.(generation := s.callbacks[id].generation));
    }
  }

  lemma HealthConfigureKeepsLease(s: Session, g: nat, point: Publish, c: Choice)
    requires Ordered(s) && Leased(s) && s.health == HealthConfiguring(g, point) && c.ok
    ensures Leased(HealthConfigure(s, g, point, c))
  {
    PublishLease(s.sink, s.link.revision, g, point, c);
  }

  lemma HealthKeepsLease(s: Session, c: Choice)
    requires Ordered(s) && Leased(s) && c.ok
    ensures Leased(AdvanceHealth(s, c))
  {
    match s.health
    case HealthConfiguring(g, point) => HealthConfigureKeepsLease(s, g, point, c);
    case HealthEnqueuing(e) => EnqueueKeepsLeases(s.sink, e);
    case _ =>
  }

  lemma TellKeepsLeases(s: Session, e: Event)
    ensures Tell(s, e).leases == s.sink.leases && (Open(Tell(s, e)) ==> Open(s.sink))
  {
  }

  lemma ConnectKeepsLease(s: Session, point: ConnectPoint, e: Event)
    requires Ordered(s) && Leased(s) && s.control == InConnect(point)
    ensures Leased(AdvanceConnect(s, point, true, e))
  {
    TellKeepsLeases(s, e);
  }

  lemma DisconnectKeepsLease(s: Session, point: DisconnectPoint, e: Event)
    requires Ordered(s) && Leased(s) && s.control == InDisconnect(point)
    ensures Leased(AdvanceDisconnect(s, point, e))
  {
    TellKeepsLeases(s, e);
  }

  lemma PauseKeepsLease(s: Session, point: PausePoint, e: Event)
    requires Ordered(s) && Leased(s) && s.control == InPause(point)
    ensures Leased(AdvancePause(s, point, e))
  {
    TellKeepsLeases(s, e);
  }

  lemma ResumeKeepsLease(s: Session, point: ResumePoint, e: Event)
    requires Ordered(s) && Leased(s) && s.control == InResume(point)
    ensures Leased(AdvanceResume(s, point, true, e))
  {
    TellKeepsLeases(s, e);
  }

  lemma CallbackKeepsLease(s: Session, id: nat, c: Choice)
    requires Ordered(s) && Leased(s) && id in s.callbacks && c.ok
    ensures Leased(AdvanceCallback(s, id, c))
  {
    match s.callbacks[id]
    case Working(g) => RecordKeepsLease(s, id, g, c);
    case Configuring(g, point) => ConfigureKeepsLease(s, id, g, point, c);
    case _ => PublishKeepsLease(s, id, c);
  }

  lemma ControlKeepsLease(s: Session, e: Event)
    requires Ordered(s) && Leased(s)
    ensures Leased(AdvanceControl(s, true, e))
  {
    match s.control
    case Ready =>
    case InConnect(point) => ConnectKeepsLease(s, point, e);
    case InDisconnect(point) => DisconnectKeepsLease(s, point, e);
    case InPause(point) => PauseKeepsLease(s, point, e);
    case InResume(point) => ResumeKeepsLease(s, point, e);
  }

  lemma StepKeepsLease(s: Session, step: Step)
    requires Ordered(s) && Leased(s) && Granted(step)
    ensures Leased(Next(s, step))
  {
    match step
    case Admit(id, generation) => AdmitKeepsLease(s, id, generation);
    case Advance(id, choice) => if id in s.callbacks { CallbackKeepsLease(s, id, choice); }
    case Health(choice) => HealthKeepsLease(s, choice);
    case Control(ok, event) => ControlKeepsLease(s, event);
    case _ =>
  }

  lemma AdmitKeepsLease(s: Session, id: nat, generation: nat)
    requires Leased(s)
    ensures Leased(AdmitCallback(s, id, generation))
  {
  }

  lemma {:induction false} RunKeepsLease(s: Session, steps: seq<Step>)
    requires Ordered(s) && Leased(s) && AllGranted(steps)
    ensures Leased(Run(s, steps))
    decreases |steps|
  {
    if steps != [] {
      assert steps[0] in steps && forall step <- steps[1..] :: step in steps;
      StepKeepsOrder(s, steps[0]);
      StepKeepsLease(s, steps[0]);
      RunKeepsLease(Next(s, steps[0]), steps[1..]);
    }
  }

  /** In every run in which every lease could be created, while the sink is open: whenever the
      session takes samples, outside a connect and with no configuration being published, the
      current lease is valid. */
  lemma LeaseIsValid(steps: seq<Step>)
    requires AllGranted(steps)
    requires var s := Run(INITIAL, steps);
             Open(s.sink) && s.link.accepting && !s.control.InConnect? && s.owner.Free?
    ensures var k := Run(INITIAL, steps).sink; k.leases[|k.leases| - 1].valid
  {
    RunKeepsLease(INITIAL, steps);
  }

  // A sample on its way.

  predicate ValidAt(k: Sink, lease: nat) { lease < |k.leases| && k.leases[lease].valid }

  function Sampling(id: nat, e: Event): Step { Advance(id, Choice(false, true, false, Streaming, 0, e)) }

  lemma PushKeepsEvent(q: Queue, e: Event)
    requires e.kind != Error
    ensures e in Pushed(q, e).events
  {
    if Coalesces(q, e) {
      assert q.events[Existing(q, e) := e][Existing(q, e)] == e;
    } else {
      assert (MakeRoom(q, e).events + [e])[|MakeRoom(q, e).events|] == e;
    }
  }

  /** What a measurement looks like in the queue. */
  function Queued(k: Sink, generation: nat, e: Event): Event {
    e.(generation := generation, lease := Some(|k.leases| - 1))
  }

  /** A callback of the current generation is admitted by a session that takes samples, and its
      sample enters the queue under the current lease, if that is valid. */
  lemma SampleEnters(s: Session, id: nat, e: Event)
    requires s.owner.Free? && id !in s.callbacks && s.link.accepting && Open(s.sink)
    requires (e.kind == Sample || e.kind == Plot) && s.sink.leases[|s.sink.leases| - 1].valid
    ensures var n := Run(s, [Admit(id, s.link.generation), Sampling(id, e), Sampling(id, e), Sampling(id, e)]);
            n.sink.leases == s.sink.leases && Queued(s.sink, s.link.generation, e) in n.sink.queue.events
  {
    var g := s.link.generation;
    RunFour(s, Admit(id, g), Sampling(id, e), Sampling(id, e), Sampling(id, e));
    var a := Next(s, Admit(id, g));
    assert a.callbacks[id] == Working(g) && a.sink == s.sink;
    var b := Next(a, Sampling(id, e));
    assert b.callbacks[id] == Publishing(g) && b.sink == s.sink && b.link.generation == g;
    var c := Next(b, Sampling(id, e));
    assert c.callbacks[id] == Enqueuing(g, e) && c.sink == s.sink;
    PushKeepsEvent(s.sink.queue, Queued(s.sink, g, e));
  }

  /** In every run in which every lease could be created: while the sink is open and the session
      takes samples, the next sample is queued with a valid lease. */
  lemma NextSampleIsServed(steps: seq<Step>, id: nat, e: Event)
    requires AllGranted(steps) && (e.kind == Sample || e.kind == Plot)
    requires var s := Run(INITIAL, steps);
             Open(s.sink) && s.link.accepting && s.control.Ready? && s.owner.Free? && id !in s.callbacks
    ensures var s := Run(INITIAL, steps);
            var n := Run(s, [Admit(id, s.link.generation), Sampling(id, e), Sampling(id, e), Sampling(id, e)]);
            ValidAt(n.sink, |s.sink.leases| - 1) && Queued(s.sink, s.link.generation, e) in n.sink.queue.events
  {
    LeaseIsValid(steps);
    SampleEnters(Run(INITIAL, steps), id, e);
  }

  const GRANT := Step.Control(true, SAMPLE)

  lemma Resumes(s: Session)
    requires s.control.Ready? && s.owner.Free? && s.link.state.Streaming? && s.link.paused && Open(s.sink)
    ensures var n := Run(s, [Issue(Command.Resume), GRANT, GRANT, GRANT]);
            && n.control.Ready? && n.owner.Free? && n.callbacks == s.callbacks
            && !n.link.paused && n.link.accepting && n.link.generation == s.link.generation
            && Open(n.sink) && |n.sink.leases| == |s.sink.leases| + 1 && n.sink.leases[|s.sink.leases|].valid
  {
    RunFour(s, Issue(Command.Resume), GRANT, GRANT, GRANT);
    var a := Next(Next(s, Issue(Command.Resume)), GRANT);
    assert a == s.(control := InResume(RLease));
    assert Next(a, GRANT) == s.(sink := Begin(s.sink, true), control := InResume(RCommit));
  }

  /** From every reachable state in which a pause has returned, set_paused(false) returns with
      the session no longer paused, and the next sample of the connection is queued with a lease
      that is valid, if the sink is open and the lease could be created. */
  lemma ResumeServes(steps: seq<Step>, id: nat, e: Event)
    requires var s := Run(INITIAL, steps);
             && s.control.Ready? && s.owner.Free? && s.link.state.Streaming? && s.link.paused
             && Open(s.sink) && id !in s.callbacks
    requires e.kind == Sample || e.kind == Plot
    ensures var s := Run(INITIAL, steps);
            var r := Run(s, [Issue(Command.Resume), GRANT, GRANT, GRANT]);
            var n := Run(r, [Admit(id, s.link.generation), Sampling(id, e), Sampling(id, e), Sampling(id, e)]);
            && r.control.Ready? && !r.link.paused
            && ValidAt(n.sink, |s.sink.leases|) && Queued(r.sink, s.link.generation, e) in n.sink.queue.events
  {
    Resumes(Run(INITIAL, steps));
    var r := Run(Run(INITIAL, steps), [Issue(Command.Resume), GRANT, GRANT, GRANT]);
    SampleEnters(r, id, e);
  }

  lemma ConnectsTo(s: Session)
    requires s.control.Ready? && s.owner.Free? && s.link.state.Disconnected? && Open(s.sink)
    ensures var n := Next(Run(s, [Issue(Connect), GRANT, GRANT, GRANT]), GRANT);
            && n.control.Ready? && n.owner.Free? && n.callbacks == s.callbacks
            && !n.link.paused && n.link.accepting && n.link.healthRunning && n.link.generation == s.link.generation + 1
            && Open(n.sink) && |n.sink.leases| == |s.sink.leases| + 1 && n.sink.leases[|s.sink.leases|].valid
  {
    RunFour(s, Issue(Connect), GRANT, GRANT, GRANT);
    var link := Link(Connecting, false, s.link.generation + 1, true, s.link.active, 0, s.link.healthRunning);
    var a := Next(Next(s, Issue(Connect)), GRANT);
    assert a == s.(link := link, control := InConnect(CRetain));
    var b := Next(a, GRANT);
    assert b == a.(sink := Retain(s.sink, s.link.generation + 1), control := InConnect(CLease));
    assert Next(b, GRANT) == b.(sink := Begin(b.sink, true), control := InConnect(CClient));
  }

  lemma ConnectServesFrom(s: Session, id: nat, e: Event)
    requires s.control.Ready? && s.owner.Free? && s.link.state.Disconnected? && Open(s.sink) && id !in s.callbacks
    requires e.kind == Sample || e.kind == Plot
    ensures var r := Next(Run(s, [Issue(Connect), GRANT, GRANT, GRANT]), GRANT);
            var g := s.link.generation + 1;
            var n := Run(r, [Admit(id, g), Sampling(id, e), Sampling(id, e), Sampling(id, e)]);
            && r.control.Ready?
            && ValidAt(n.sink, |s.sink.leases|) && Queued(r.sink, g, e) in n.sink.queue.events
  {
    ConnectsTo(s);
    var r := Next(Run(s, [Issue(Connect), GRANT, GRANT, GRANT]), GRANT);
    SampleEnters(r, id, e);
  }

  /** And so does connect() from every reachable state that is disconnected. */
  lemma ConnectServes(steps: seq<Step>, id: nat, e: Event)
    requires var s := Run(INITIAL, steps);
             && s.control.Ready? && s.owner.Free? && s.link.state.Disconnected?
             && Open(s.sink) && id !in s.callbacks
    requires e.kind == Sample || e.kind == Plot
    ensures var s := Run(INITIAL, steps);
            var r := Next(Run(s, [Issue(Connect), GRANT, GRANT, GRANT]), GRANT);
            var g := s.link.generation + 1;
            var n := Run(r, [Admit(id, g), Sampling(id, e), Sampling(id, e), Sampling(id, e)]);
            && r.control.Ready?
            && ValidAt(n.sink, |s.sink.leases|) && Queued(r.sink, g, e) in n.sink.queue.events
  {
    ConnectServesFrom(Run(INITIAL, steps), id, e);
  }

  lemma HeadIsWritten(s: Session, e: Event)
    requires s.sink.queue.events != [] && s.sink.queue.events[0] == e && !s.sink.closed && s.consumer.hand.None?
    requires Deliverable(s.sink, e)
    ensures Run(s, [Pop, Test(|s.popped|), Write]).consumer.written == s.consumer.written + [e]
  {
    RunThree(s, Pop, Test(|s.popped|), Write);
    var a := Next(s, Pop);
    assert a.popped == s.popped + [e] && a.sink.leases == s.sink.leases;
    assert Next(a, Test(|s.popped|)).consumer == s.consumer.(hand := Some(e));
  }

  /** A measurement at the head of the queue whose lease is valid is written when the consumer
      takes it, tests it and writes it with nothing in between. */
  lemma ValidIsWritten(s: Session, e: Event, lease: nat)
    requires s.sink.queue.events != [] && s.sink.queue.events[0] == e && !s.sink.closed && s.consumer.hand.None?
    requires e.lease == Some(lease) && ValidAt(s.sink, lease)
    ensures Run(s, [Pop, Test(|s.popped|), Write]).consumer.written == s.consumer.written + [e]
  {
    HeadIsWritten(s, e);
  }

  /** Any other event is written whatever the leases. */
  lemma OtherIsWritten(s: Session, e: Event)
    requires s.sink.queue.events != [] && s.sink.queue.events[0] == e && !s.sink.closed && s.consumer.hand.None?
    requires e.kind != Sample && e.kind != Plot
    ensures Run(s, [Pop, Test(|s.popped|), Write]).consumer.written == s.consumer.written + [e]
  {
    HeadIsWritten(s, e);
  }

  // Pausing and disconnecting.

  /** No sample or plot of a generation is queued. */
  predicate Purged(k: Sink, generation: nat) {
    forall e <- k.queue.events :: !(e.generation == generation && (e.kind == Sample || e.kind == Plot))
  }

  lemma PurgeIsPurged(k: Sink, generation: nat)
    ensures Purged(Purge(k, generation), generation)
  {
    Sequences.FilterMembers(k.queue.events, NotMeasuring(generation));
  }

  lemma PausesFirst(s: Session)
    requires s.control.Ready? && s.owner.Free? && s.link.state.Streaming? && !s.link.paused && s.link.active == 0
    ensures Run(s, [Issue(Command.Pause), GRANT, GRANT, GRANT]) ==
            s.(link := s.link.(accepting := false), sink := Revoke(s.sink), revoked := true, control := InPause(PPurge))
  {
    RunFour(s, Issue(Command.Pause), GRANT, GRANT, GRANT);
    var a := Next(Next(s, Issue(Command.Pause)), GRANT);
    assert a == s.(link := s.link.(accepting := false), control := InPause(PAwait));
    assert Next(a, GRANT) == a.(control := InPause(PRevoke));
  }

  lemma PausesLast(s: Session)
    requires s.control == InPause(PPurge) && s.owner.Free?
    ensures Run(s, [GRANT, GRANT, GRANT]) ==
            s.(sink := Purge(s.sink, s.link.generation), link := s.link.(paused := true), quiet := true, control := Ready)
  {
    RunThree(s, GRANT, GRANT, GRANT);
    var a := Next(s, GRANT);
    assert a == s.(sink := Purge(s.sink, s.link.generation), control := InPause(PCommit));
    assert Next(a, GRANT) == a.(link := s.link.(paused := true), control := InPause(PReturn));
  }

  /** While the session streams and no callback is inside, set_paused(true) returns with it
      paused, its lease revoked and no sample or plot of the connection queued. */
  lemma PauseReturns(s: Session)
    requires s.control.Ready? && s.owner.Free? && s.link.state.Streaming? && !s.link.paused && s.link.active == 0
    ensures var n := Run(Run(s, [Issue(Command.Pause), GRANT, GRANT, GRANT]), [GRANT, GRANT, GRANT]);
            && n.control.Ready? && n.link.paused && !n.link.accepting && n.link.generation == s.link.generation
            && !ValidAt(n.sink, |n.sink.leases| - 1) && Purged(n.sink, s.link.generation)
  {
    PausesFirst(s);
    PausesLast(Run(s, [Issue(Command.Pause), GRANT, GRANT, GRANT]));
    PurgeIsPurged(Revoke(s.sink), s.link.generation);
  }

  lemma DisconnectsFirst(s: Session)
    requires s.control.Ready? && s.owner.Free? && !s.link.state.Disconnected? && s.link.active == 0
    ensures Run(s, [Issue(Disconnect), GRANT, GRANT, GRANT]) ==
            s.(link := s.link.(accepting := false, state := Disconnecting, paused := false), sink := Revoke(s.sink),
               revoked := true, control := InDisconnect(DPurge))
  {
    RunFour(s, Issue(Disconnect), GRANT, GRANT, GRANT);
    var a := Next(Next(s, Issue(Disconnect)), GRANT);
    assert a == s.(link := s.link.(accepting := false, state := Disconnecting, paused := false),
                   control := InDisconnect(DAwait));
    assert Next(a, GRANT) == a.(control := InDisconnect(DRevoke));
  }

  lemma DisconnectsLast(s: Session)
    requires s.control == InDisconnect(DPurge) && s.owner.Free? && s.health.Polling?
    ensures Run(s, [GRANT, GRANT, GRANT, GRANT]) ==
            s.(sink := Purge(s.sink, s.link.generation), quiet := true, control := Ready,
               link := s.link.(healthRunning := false, state := Connection.Disconnected, paused := false))
  {
    RunFour(s, GRANT, GRANT, GRANT, GRANT);
    var a := Next(s, GRANT);
    assert a == s.(sink := Purge(s.sink, s.link.generation), control := InDisconnect(DJoin));
    var b := Next(a, GRANT);
    assert b == a.(link := s.link.(healthRunning := false), control := InDisconnect(DCommit));
    assert Next(b, GRANT) ==
           b.(link := b.link.(state := Connection.Disconnected, paused := false), control := InDisconnect(DReturn));
  }

  /** While no callback is inside and the health thread is between two polls, disconnect()
      returns with the session disconnected, its lease revoked and its samples gone. */
  lemma DisconnectReturns(s: Session)
    requires s.control.Ready? && s.owner.Free? && !s.link.state.Disconnected? && s.link.active == 0 && s.health.Polling?
    ensures var n := Run(Run(s, [Issue(Disconnect), GRANT, GRANT, GRANT]), [GRANT, GRANT, GRANT, GRANT]);
            && n.control.Ready? && n.link.state.Disconnected? && !n.link.accepting && !n.link.healthRunning
            && !ValidAt(n.sink, |n.sink.leases| - 1) && Purged(n.sink, s.link.generation)
  {
    DisconnectsFirst(s);
    DisconnectsLast(Run(s, [Issue(Disconnect), GRANT, GRANT, GRANT]));
    PurgeIsPurged(Revoke(s.sink), s.link.generation);
  }

  /** A connect forgets what older connections have queued. */
  lemma ConnectForgets(s: Session)
    requires s.control == InConnect(CRetain) && Open(s.sink)
    ensures forall e <- Next(s, GRANT).sink.queue.events ::
              e.generation == s.link.generation && e in s.sink.queue.events
    ensures forall e <- s.sink.queue.events ::
              e.generation == s.link.generation ==> e in Next(s, GRANT).sink.queue.events
  {
    Sequences.FilterMembers(s.sink.queue.events, InGeneration(s.link.generation));
  }

  // A new configuration.

  function Bringing(id: nat, revision: nat): Step {
    Advance(id, Choice(true, true, false, Streaming, revision, SAMPLE))
  }

  /** A callback that brings a configuration in place of an older one revokes the lease, takes
      the connection's samples out of the queue, begins a new lease and queues the event. */
  lemma ConfigurationReplaces(s: Session, id: nat, revision: nat)
    requires s.owner.Free? && id in s.callbacks && s.callbacks[id] == Working(s.link.generation)
    requires s.link.accepting && s.link.revision != 0 && Open(s.sink)
    ensures var p := Bringing(id, revision);
            var n := Next(Run(s, [p, p, p, p]), p);
            && n.owner.Free? && n.link.revision == revision && n.link.state.Streaming?
            && |n.sink.leases| == |s.sink.leases| + 1 && ValidAt(n.sink, |s.sink.leases|)
            && Event(s.link.generation, Configuration, 0, 0, None) in n.sink.queue.events
  {
    var p, g := Bringing(id, revision), s.link.generation;
    RunFour(s, p, p, p, p);
    var a := Next(s, p);
    assert a.owner == ByCallback(id) && a.callbacks[id] == Configuring(g, PublishRevoke) && a.sink == s.sink;
    var b := Next(a, p);
    assert b.callbacks[id] == Configuring(g, PublishPurge) && b.sink == Revoke(s.sink);
    var c := Next(b, p);
    assert c.callbacks[id] == Configuring(g, PublishBegin) && c.sink == Purge(Revoke(s.sink), g);
    var d := Next(c, p);
    assert d.callbacks[id] == Configuring(g, PublishPush) && d.sink == Begin(c.sink, true);
    PushKeepsEvent(d.sink.queue, Event(g, Configuration, 0, 0, None));
  }
}
