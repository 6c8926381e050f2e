/** The companion's output writer as a machine of two threads: the command thread, which
    submits responses by ticket and ends with a shutdown, and the writer thread, which writes
    responses and session events. One step is one mutex section or one write. */
module OutputProtocol {
  import opened Wrappers
  import Sequences

  datatype Kind = Measurement | Recording | Other

  /** A session event: a measurement has a lease, a recorder state is written with a second
      frame for its progress, and either frame may be refused by the serialiser. */
  datatype Event = Event(id: nat, kind: Kind, lease: nat, generation: nat, serializes: bool, progress: bool)

  datatype Frame = Response(ticket: nat) | State(id: nat) | Progress(id: nat)

  /** Where the command thread is. */
  datatype Command =
    | Idle
    | WaitFree(shutdown: bool)
    | WaitWritten(ticket: nat, shutdown: bool)
    | Finish(shutdown: bool)
    | WaitFinished(shutdown: bool)
    | Close(answered: bool)
    | Join(answered: bool)
    | Done(answered: bool)

  /** Where the writer thread is. */
  datatype Writer =
    | Top
    | Commit(ticket: nat)
    | Complete(ticket: nat)
    | Read
    | CommitState(event: Event)  // before the test of its lease
    | WriteState(event: Event)   // after the test: written whatever the leases become
    | CommitProgress(event: Event)
    | Check(closed: bool)
    | WaitClosing
    | Failing
    | Exit

  /** The fields under the writer's mutex. */
  datatype Desk = Desk(pending: Option<nat>, next: nat, completed: nat, closing: bool, failed: bool, finished: bool)

  datatype Sink = Sink(queue: seq<Event>, finishing: bool, valid: set<nat>)

  /** The output, and at finish the event frames that are still owed or already written. */
  datatype Log = Log(output: seq<Frame>, promised: seq<Frame>)

  datatype System = System(command: Command, writer: Writer, desk: Desk, sink: Sink, log: Log)

  predicate Deliverable(e: Event, valid: set<nat>) { e.kind != Measurement || e.lease in valid }

  function StateFrames(e: Event, valid: set<nat>): seq<Frame> {
    if e.serializes && Deliverable(e, valid) then [State(e.id)] else []
  }

  function ProgressFrames(e: Event): seq<Frame> {
    if e.kind == Recording && e.progress then [Progress(e.id)] else []
  }

  /** The frames an event is written as. */
  function FramesOf(e: Event, valid: set<nat>): seq<Frame> { StateFrames(e, valid) + ProgressFrames(e) }

  function FramesOfAll(es: seq<Event>, valid: set<nat>): seq<Frame> {
    if es == [] then [] else FramesOf(es[0], valid) + FramesOfAll(es[1..], valid)
  }

  function InHand(w: Writer, valid: set<nat>): seq<Frame> {
    match w
    case CommitState(e) => FramesOf(e, valid)
    case WriteState(e) => [State(e.id)] + ProgressFrames(e)
    case CommitProgress(e) => ProgressFrames(e)
    case _ => []
  }

  function IsEvent(): Frame -> bool { (f: Frame) => !f.Response? }

  function Events(output: seq<Frame>): seq<Frame> { Sequences.Filter(output, IsEvent()) }

  function IsResponse(): Frame -> bool { (f: Frame) => f.Response? }

  function Responses(output: seq<Frame>): seq<Frame> { Sequences.Filter(output, IsResponse()) }

  function Tickets(n: nat): seq<Frame> {
    if n == 0 then [] else Tickets(n - 1) + [Response(n)]
  }

  /** What is written, in the hand of the writer, or queued, as event frames. */
  function Owed(output: seq<Frame>, w: Writer, sink: Sink): seq<Frame> {
    Events(output) + InHand(w, sink.valid) + FramesOfAll(sink.queue, sink.valid)
  }

  predicate StillRevoked(e: Event) { e.kind == Measurement && e.generation == 0 }

  function Kept(): Event -> bool { (e: Event) => !StillRevoked(e) }

  const START := System(Idle, Top, Desk(None, 0, 0, false, false, false), Sink([], false, {}), Log([], []))

  /** Steps, with what the environment decides: what the command thread does next, whether a
      write succeeds, and how the session changes its queue and leases. */
  datatype Step =
    | Respond
    | Shutdown
    | Quit
    | CommandStep
    | WriterStep(ok: bool)
    | Session(queue: seq<Event>, valid: set<nat>)

  function SubmitNext(s: System): System {
    var d := s.desk;
    match s.command
    case WaitFree(shutdown) =>
      if d.failed || d.closing then s.(command := if shutdown then Close(false) else Finish(false))
      else if d.pending.Some? then s
      else s.(command := WaitWritten(d.next + 1, shutdown),
              desk := d.(pending := Some(d.next + 1), next := d.next + 1))
    case WaitWritten(ticket, shutdown) =>
      if d.completed >= ticket && !d.failed then s.(command := if shutdown then Close(true) else Idle)
      else if d.failed || d.closing then s.(command := if shutdown then Close(false) else Finish(false))
      else s
    case _ => s
  }

  function CommandNext(s: System): System {
    var d := s.desk;
    match s.command
    case Idle => s
    case WaitFree(_) => SubmitNext(s)
    case WaitWritten(_, _) => SubmitNext(s)
    case Finish(shutdown) =>
      var sink := Sink(Sequences.Filter(s.sink.queue, Kept()), true, {});
      s.(command := WaitFinished(shutdown), sink := sink,
         log := s.log.(promised := Owed(s.log.output, s.writer, sink)))
    case WaitFinished(shutdown) =>
      if d.finished || d.failed then s.(command := if shutdown then WaitFree(true) else Close(false)) else s
    case Close(answered) => s.(command := Join(answered), desk := d.(closing := true))
    case Join(answered) => if s.writer.Exit? then s.(command := Done(answered)) else s
    case Done(_) => s
  }

  function Written(s: System, frames: seq<Frame>, ok: bool, next: Writer): System {
    if frames == [] then s.(writer := next)
    else if !ok then s.(writer := Failing)
    else s.(writer := next, log := s.log.(output := s.log.output + frames))
  }

  function ResponseNext(s: System, ok: bool): System {
    match s.writer
    case Top =>
      if s.desk.pending.Some? then
        s.(writer := Commit(s.desk.pending.value), desk := s.desk.(pending := None))
      else s.(writer := Read)
    case Commit(ticket) => Written(s, [Response(ticket)], ok, Complete(ticket))
    case Complete(ticket) => s.(writer := Read, desk := s.desk.(completed := ticket))
    case _ => s
  }

  function EventNext(s: System, ok: bool): System {
    match s.writer
    case Read =>
      if s.sink.queue != [] then
        s.(writer := CommitState(s.sink.queue[0]), sink := s.sink.(queue := s.sink.queue[1..]))
      else s.(writer := Check(s.sink.finishing))
    case CommitState(e) =>
      s.(writer := if StateFrames(e, s.sink.valid) == [] then CommitProgress(e) else WriteState(e))
    case WriteState(e) => Written(s, [State(e.id)], ok, CommitProgress(e))
    case CommitProgress(e) => Written(s, ProgressFrames(e), ok, Check(false))
    case _ => s
  }

  function EndNext(s: System): System {
    match s.writer
    case Check(closed) =>
      if closed then s.(writer := WaitClosing, desk := s.desk.(finished := true)) else s.(writer := Top)
    case WaitClosing =>
      if s.desk.closing && s.desk.pending.None? then s.(writer := Exit)
      else if s.desk.pending.Some? || s.desk.failed then s.(writer := Top)
      else s
    case Failing => s.(writer := Exit, desk := s.desk.(failed := true))
    case _ => s
  }

  function WriterNext(s: System, ok: bool): System {
    match s.writer
    case Top => ResponseNext(s, ok)
    case Commit(_) => ResponseNext(s, ok)
    case Complete(_) => ResponseNext(s, ok)
    case Read => EventNext(s, ok)
    case CommitState(_) => EventNext(s, ok)
    case WriteState(_) => EventNext(s, ok)
    case CommitProgress(_) => EventNext(s, ok)
    case _ => EndNext(s)
  }

  /** A step that is not possible changes nothing. The session is gone once it has finished. */
  function Next(s: System, step: Step): System {
    match step
    case Respond => if s.command.Idle? then s.(command := WaitFree(false)) else s
    case Shutdown => if s.command.Idle? then s.(command := Finish(true)) else s
    case Quit => if s.command.Idle? then s.(command := Finish(false)) else s
    case CommandStep => CommandNext(s)
    case WriterStep(ok) => WriterNext(s, ok)
    case Session(queue, valid) =>
      if s.sink.finishing then s else s.(sink := s.sink.(queue := queue, valid := valid))
  }

  function Run(steps: seq<Step>): System {
    if steps == [] then START else Next(Run(steps[..|steps| - 1]), steps[|steps| - 1])
  }

  // The invariant. What it says about events holds for as long as no write has failed.

  /** The ticket the writer holds. */
  function Held(w: Writer): Option<nat> {
    match w
    case Commit(ticket) => Some(ticket)
    case Complete(ticket) => Some(ticket)
    case _ => None
  }

  predicate Closing(c: Command) { c.Join? || c.Done? }

  predicate Waiting(c: Command, ticket: nat) { c.WaitWritten? && c.ticket == ticket }

  /** One ticket at a time, on the desk or in the hand of the writer, and its command waits. */
  predicate TicketsKept(c: Command, w: Writer, d: Desk) {
    (d.closing <==> Closing(c)) && (c.WaitWritten? ==> c.ticket == d.next) &&
    d.completed <= d.next <= d.completed + 1 &&
    (d.pending.Some? ==> d.pending.value == d.next && Held(w).None? && d.next == d.completed + 1) &&
    (Held(w).Some? ==> Held(w).value == d.next && d.next == d.completed + 1) &&
    (d.next == d.completed + 1 && !d.failed ==> Waiting(c, d.next)) &&
    (d.next == d.completed + 1 && !d.failed && !w.Failing? ==> d.pending.Some? || Held(w).Some?)
  }

  /** Exactly the tickets so far are written, each once and in order. */
  predicate ResponsesKept(w: Writer, d: Desk, output: seq<Frame>) {
    Responses(output) == Tickets(if w.Complete? then d.completed + 1 else d.completed)
  }

  predicate AfterFinish(c: Command) {
    c.WaitFinished? || (c.WaitFree? && c.shutdown) || (c.WaitWritten? && c.shutdown) ||
    c.Close? || c.Join? || c.Done?
  }

  /** After finish no event frame is lost, added or reordered. */
  predicate EventsKept(c: Command, finishing: bool, valid: set<nat>, owed: seq<Frame>, promised: seq<Frame>) {
    (finishing <==> AfterFinish(c)) && (finishing ==> valid == {} && owed == promised)
  }

  /** Once the session's events are written nothing is left to write but a response. */
  predicate Writing(w: Writer) { w.CommitState? || w.WriteState? || w.CommitProgress? }

  predicate FinishedKept(c: Command, w: Writer, d: Desk, sink: Sink) {
    (w.Check? && w.closed ==> sink.finishing && sink.queue == []) &&
    (w.WaitClosing? || w.Exit? ==> d.finished) && (w.Exit? ==> d.closing) &&
    (d.finished ==> sink.finishing && sink.queue == [] && !Writing(w)) &&
    (AfterFinish(c) && !c.WaitFinished? ==> d.finished)
  }

  /** The command thread after its shutdown was answered, or about to learn that it is. */
  predicate Answered(c: Command, w: Writer, d: Desk) {
    (c.WaitWritten? && c.shutdown && (w.Complete? || d.completed == d.next)) ||
    (c.Close? && c.answered) || (c.Join? && c.answered) || (c.Done? && c.answered)
  }

  /** The shutdown response, once written, is the last frame. */
  predicate LastKept(c: Command, w: Writer, d: Desk, output: seq<Frame>) {
    Answered(c, w, d) ==> EndsWith(output, d.next)
  }

  predicate EndsWith(output: seq<Frame>, ticket: nat) {
    output != [] && output[|output| - 1] == Response(ticket)
  }

  predicate Failed(s: System) { s.desk.failed || s.writer.Failing? }

  predicate Inv(s: System) {
    TicketsKept(s.command, s.writer, s.desk) && ResponsesKept(s.writer, s.desk, s.log.output) &&
    (s.desk.failed ==> s.writer.Exit?) &&
    (!Failed(s) ==>
       EventsKept(s.command, s.sink.finishing, s.sink.valid, Owed(s.log.output, s.writer, s.sink), s.log.promised) &&
       FinishedKept(s.command, s.writer, s.desk, s.sink) &&
       LastKept(s.command, s.writer, s.desk, s.log.output))
  }

  lemma EventsAppend(output: seq<Frame>, frames: seq<Frame>)
    requires forall f <- frames :: !f.Response?
    ensures Events(output + frames) == Events(output) + frames
    ensures Responses(output + frames) == Responses(output)
  {
    Sequences.FilterConcat(output, frames, IsEvent());
    Sequences.FilterConcat(output, frames, IsResponse());
    Sequences.FilterAll(frames, IsEvent());
    Sequences.FilterNone(frames, IsResponse());
    assert Responses(output) + [] == Responses(output);
  }

  lemma ResponseAppend(output: seq<Frame>, ticket: nat)
    ensures Events(output + [Response(ticket)]) == Events(output)
    ensures Responses(output + [Response(ticket)]) == Responses(output) + [Response(ticket)]
    ensures EndsWith(output + [Response(ticket)], ticket)
  {
    Sequences.FilterConcat(output, [Response(ticket)], IsEvent());
    Sequences.FilterConcat(output, [Response(ticket)], IsResponse());
    Sequences.FilterNone([Response(ticket)], IsEvent());
    Sequences.FilterAll([Response(ticket)], IsResponse());
    assert Events(output) + [] == Events(output);
  }

  lemma ResponseWritten(output: seq<Frame>, completed: nat, sink: Sink)
    requires Responses(output) == Tickets(completed)
    ensures var r := output + [Response(completed + 1)];
            Responses(r) == Tickets(completed + 1) && EndsWith(r, completed + 1) &&
            Owed(r, Complete(completed + 1), sink) == Owed(output, Commit(completed + 1), sink)
  {
    ResponseAppend(output, completed + 1);
  }

  lemma CommitFailsKeepsInv(s: System)
    requires Inv(s) && !s.desk.failed && s.writer.Commit?
    ensures Inv(s.(writer := Failing))
  {
  }

  lemma CommitTickets(c: Command, ticket: nat, d: Desk)
    requires TicketsKept(c, Commit(ticket), d)
    ensures TicketsKept(c, Complete(ticket), d) && ticket == d.completed + 1 && ticket == d.next
  {
  }

  lemma CommitFinished(c: Command, ticket: nat, d: Desk, sink: Sink)
    requires FinishedKept(c, Commit(ticket), d, sink)
    ensures FinishedKept(c, Complete(ticket), d, sink)
  {
  }

  lemma CommitDoneKeepsInv(s: System)
    requires Inv(s) && !s.desk.failed && s.writer.Commit?
    ensures Inv(ResponseNext(s, true))
  {
    var ticket := s.writer.ticket;
    CommitTickets(s.command, ticket, s.desk);
    CommitFinished(s.command, ticket, s.desk, s.sink);
    ResponseWritten(s.log.output, s.desk.completed, s.sink);
  }

  lemma TakesKeepsInv(s: System)
    requires Inv(s) && !s.desk.failed && s.writer.Top? && s.desk.pending.Some?
    ensures Inv(ResponseNext(s, true))
  {
  }

  lemma PassesKeepsInv(s: System)
    requires Inv(s) && !s.desk.failed && s.writer.Top? && s.desk.pending.None?
    ensures Inv(s.(writer := Read))
  {
  }

  lemma CompletesKeepsInv(s: System)
    requires Inv(s) && !s.desk.failed && s.writer.Complete?
    ensures Inv(ResponseNext(s, true))
  {
  }

  lemma ResponseKeepsInv(s: System, ok: bool)
    requires Inv(s) && !s.desk.failed && (s.writer.Top? || s.writer.Commit? || s.writer.Complete?)
    ensures Inv(ResponseNext(s, ok))
  {
    if s.writer.Complete? {
      CompletesKeepsInv(s);
    } else if s.writer.Top? {
      if s.desk.pending.Some? {
        TakesKeepsInv(s);
      } else {
        PassesKeepsInv(s);
      }
    } else if ok {
      CommitDoneKeepsInv(s);
    } else {
      CommitFailsKeepsInv(s);
    }
  }

  lemma OwedMoves(output: seq<Frame>, a: seq<Frame>, b: seq<Frame>, c: seq<Frame>)
    ensures output + (a + b) + c == output + a + b + c
    ensures output + [] + (a + b) == output + a + b
  {
  }

  lemma ReadKeepsInv(s: System)
    requires Inv(s) && !s.desk.failed && s.writer.Read?
    ensures Inv(EventNext(s, true))
  {
    if s.sink.queue != [] {
      var e, rest := s.sink.queue[0], s.sink.queue[1..];
      OwedMoves(Events(s.log.output), FramesOf(e, s.sink.valid), FramesOfAll(rest, s.sink.valid), []);
    }
  }

  lemma StateWritten(output: seq<Frame>, e: Event, sink: Sink)
    ensures var r := output + [State(e.id)];
            Owed(r, CommitProgress(e), sink) == Owed(output, WriteState(e), sink) && Responses(r) == Responses(output)
  {
    EventsAppend(output, [State(e.id)]);
    Sequences.Associate(Events(output), [State(e.id)], ProgressFrames(e));
  }

  lemma ProgressWritten(output: seq<Frame>, e: Event, sink: Sink)
    ensures var frames := ProgressFrames(e);
            Owed(output + frames, Check(false), sink) == Owed(output, CommitProgress(e), sink) &&
            Responses(output + frames) == Responses(output) && (frames == [] ==> output + frames == output)
  {
    var frames := ProgressFrames(e);
    EventsAppend(output, frames);
    NothingInHand(Events(output) + frames);
  }

  lemma NothingInHand(events: seq<Frame>)
    ensures events + [] == events
  {
  }

  lemma WrittenKeepsInv(s: System, frames: seq<Frame>, ok: bool, next: Writer)
    requires Inv(s) && !s.desk.failed && (s.writer.WriteState? || s.writer.CommitProgress?)
    requires next.CommitProgress? || next == Check(false)
    requires Owed(s.log.output + frames, next, s.sink) == Owed(s.log.output, s.writer, s.sink)
    requires Responses(s.log.output + frames) == Responses(s.log.output)
    requires frames == [] ==> s.log.output + frames == s.log.output
    ensures Inv(Written(s, frames, ok, next))
  {
  }

  /** The test decides whether the state frame is owed, and from then on it is owed whatever
      happens to its lease. */
  lemma TestKeepsInv(s: System, ok: bool)
    requires Inv(s) && !s.desk.failed && s.writer.CommitState?
    ensures Inv(EventNext(s, ok))
  {
    var e := s.writer.event;
    assert [] + ProgressFrames(e) == ProgressFrames(e);
    assert InHand(EventNext(s, ok).writer, s.sink.valid) == InHand(s.writer, s.sink.valid);
  }

  lemma CommitKeepsInv(s: System, ok: bool)
    requires Inv(s) && !s.desk.failed && (s.writer.WriteState? || s.writer.CommitProgress?)
    ensures Inv(EventNext(s, ok))
  {
    var e := s.writer.event;
    if s.writer.WriteState? {
      StateWritten(s.log.output, e, s.sink);
      WrittenKeepsInv(s, [State(e.id)], ok, CommitProgress(e));
    } else {
      ProgressWritten(s.log.output, e, s.sink);
      WrittenKeepsInv(s, ProgressFrames(e), ok, Check(false));
    }
  }

  lemma CheckKeepsInv(s: System)
    requires Inv(s) && s.writer.Check?
    ensures Inv(EndNext(s))
  {
  }

  lemma CloseKeepsInv(s: System)
    requires Inv(s) && s.writer.WaitClosing?
    ensures Inv(EndNext(s))
  {
  }

  lemma FailKeepsInv(s: System)
    requires Inv(s) && s.writer.Failing?
    ensures Inv(EndNext(s))
  {
  }

  lemma WriterKeepsInv(s: System, ok: bool)
    requires Inv(s)
    ensures Inv(WriterNext(s, ok))
  {
    match s.writer
    case Top => ResponseKeepsInv(s, ok);
    case Commit(_) => ResponseKeepsInv(s, ok);
    case Complete(_) => ResponseKeepsInv(s, ok);
    case Read => ReadKeepsInv(s);
    case CommitState(_) => TestKeepsInv(s, ok);
    case WriteState(_) => CommitKeepsInv(s, ok);
    case CommitProgress(_) => CommitKeepsInv(s, ok);
    case Check(_) => CheckKeepsInv(s);
    case WaitClosing => CloseKeepsInv(s);
    case Failing => FailKeepsInv(s);
    case Exit =>
  }

  lemma SubmitKeepsInv(s: System)
    requires Inv(s) && (s.command.WaitFree? || s.command.WaitWritten?)
    ensures Inv(SubmitNext(s))
  {
  }

  lemma CommandKeepsInv(s: System)
    requires Inv(s)
    ensures Inv(CommandNext(s))
  {
    if s.command.WaitFree? || s.command.WaitWritten? {
      SubmitKeepsInv(s);
    }
  }

  lemma StepKeepsInv(s: System, step: Step)
    requires Inv(s)
    ensures Inv(Next(s, step))
  {
    match step
    case CommandStep => CommandKeepsInv(s);
    case WriterStep(ok) => WriterKeepsInv(s, ok);
    case _ =>
  }

  lemma {:induction false} EveryRunKeepsInv(steps: seq<Step>)
    ensures Inv(Run(steps))
    decreases |steps|
  {
    if steps != [] {
      EveryRunKeepsInv(steps[..|steps| - 1]);
      StepKeepsInv(Run(steps[..|steps| - 1]), steps[|steps| - 1]);
    }
  }

  // What it all means.

  lemma ReturnsWritten(s: System)
    requires Inv(s) && s.command.WaitWritten?
    requires CommandNext(s).command.Idle? || CommandNext(s).command == Close(true)
    ensures Responses(s.log.output) == Tickets(s.command.ticket)
  {
  }

  /** Responses are written in ticket order, each once, and before submit returns success. */
  lemma SubmitReturnsWritten(steps: seq<Step>)
    requires Run(steps).command.WaitWritten?
    requires var n := CommandNext(Run(steps)); n.command.Idle? || n.command == Close(true)
    ensures Responses(Run(steps).log.output) == Tickets(Run(steps).command.ticket)
  {
    EveryRunKeepsInv(steps);
    ReturnsWritten(Run(steps));
  }

  lemma {:induction false} PurgeTakesUndeliverable(queue: seq<Event>)
    ensures FramesOfAll(Sequences.Filter(queue, Kept()), {}) == FramesOfAll(queue, {})
    decreases |queue|
  {
    if queue != [] {
      PurgeTakesUndeliverable(queue[1..]);
      assert StillRevoked(queue[0]) ==> FramesOf(queue[0], {}) == [];
      assert [] + Sequences.Filter(queue[1..], Kept()) == Sequences.Filter(queue[1..], Kept());
      assert ([queue[0]] + Sequences.Filter(queue[1..], Kept()))[1..] == Sequences.Filter(queue[1..], Kept());
      assert [] + FramesOfAll(queue[1..], {}) == FramesOfAll(queue[1..], {});
    }
  }

  function RunFrom(s: System, steps: seq<Step>): System {
    if steps == [] then s else Next(RunFrom(s, steps[..|steps| - 1]), steps[|steps| - 1])
  }

  /** Finished, with the promise unchanged, unless a write has failed. */
  predicate Promises(s: System, promised: seq<Frame>) {
    Inv(s) && (Failed(s) || (s.sink.finishing && s.log.promised == promised))
  }

  lemma PromiseStays(s: System, step: Step)
    requires s.sink.finishing && (s.sink.finishing <==> AfterFinish(s.command))
    ensures Next(s, step).sink.finishing && Next(s, step).log.promised == s.log.promised
  {
  }

  lemma FailedStays(s: System, step: Step)
    requires Failed(s) && (s.desk.failed ==> s.writer.Exit?)
    ensures Failed(Next(s, step))
  {
  }

  lemma PromiseStep(s: System, step: Step, promised: seq<Frame>)
    requires Promises(s, promised)
    ensures Promises(Next(s, step), promised)
  {
    StepKeepsInv(s, step);
    if Failed(s) {
      FailedStays(s, step);
    } else {
      PromiseStays(s, step);
    }
  }

  lemma {:induction false} PromiseKept(s: System, steps: seq<Step>, promised: seq<Frame>)
    requires Promises(s, promised)
    ensures Promises(RunFrom(s, steps), promised)
    decreases |steps|
  {
    if steps != [] {
      PromiseKept(s, steps[..|steps| - 1], promised);
      PromiseStep(RunFrom(s, steps[..|steps| - 1]), steps[|steps| - 1], promised);
    }
  }

  lemma FinishPromises(s: System)
    requires s.command.Finish? && Inv(s)
    ensures var n := CommandNext(s);
            n.sink.finishing && Inv(n) &&
            n.log.promised == Events(s.log.output) + InHand(s.writer, {}) + FramesOfAll(s.sink.queue, {})
  {
    CommandKeepsInv(s);
    PurgeTakesUndeliverable(s.sink.queue);
  }

  /** The command thread is ending the session, for a shutdown or at the end of the input. */
  predicate Ending(c: Command) { c.Finish? || AfterFinish(c) }

  /** How it will end: with the shutdown answered, or without a response. */
  function Outcome(c: Command): bool {
    match c
    case Idle => false
    case WaitFree(shutdown) => shutdown
    case WaitWritten(_, shutdown) => shutdown
    case Finish(shutdown) => shutdown
    case WaitFinished(shutdown) => shutdown
    case Close(answered) => answered
    case Join(answered) => answered
    case Done(answered) => answered
  }

  /** The ticket of the last response there will be: a shutdown takes one more. */
  function LastTicket(c: Command, d: Desk): nat {
    d.next + if Outcome(c) && (c.Finish? || c.WaitFinished? || c.WaitFree?) then 1 else 0
  }

  /** The end is the one begun, unless a write has failed. */
  predicate EndsAs(s: System, answered: bool, last: nat) {
    Ending(s.command) && Outcome(s.command) == answered && LastTicket(s.command, s.desk) == last
  }

  lemma WriterEndsAs(s: System, ok: bool, answered: bool, last: nat)
    requires EndsAs(s, answered, last)
    ensures EndsAs(WriterNext(s, ok), answered, last)
  {
  }

  /** Without a failure no submit is turned away before the desk is closed. */
  lemma CommandEndsAs(s: System, answered: bool, last: nat)
    requires TicketsKept(s.command, s.writer, s.desk) && !Failed(s) && EndsAs(s, answered, last)
    ensures EndsAs(CommandNext(s), answered, last)
  {
  }

  lemma StepEndsAs(s: System, step: Step, answered: bool, last: nat)
    requires Inv(s) && (Failed(s) || EndsAs(s, answered, last))
    ensures Failed(Next(s, step)) || EndsAs(Next(s, step), answered, last)
  {
    if Failed(s) {
      FailedStays(s, step);
    } else {
      match step
      case CommandStep => CommandEndsAs(s, answered, last);
      case WriterStep(ok) => WriterEndsAs(s, ok, answered, last);
      case _ =>
    }
  }

  lemma {:induction false} RunEndsAs(s: System, steps: seq<Step>, answered: bool, last: nat)
    requires Inv(s) && (Failed(s) || EndsAs(s, answered, last))
    ensures Inv(RunFrom(s, steps))
    ensures Failed(RunFrom(s, steps)) || EndsAs(RunFrom(s, steps), answered, last)
    decreases |steps|
  {
    if steps != [] {
      var init := steps[..|steps| - 1];
      RunEndsAs(s, init, answered, last);
      StepKeepsInv(RunFrom(s, init), steps[|steps| - 1]);
      StepEndsAs(RunFrom(s, init), steps[|steps| - 1], answered, last);
    }
  }

  lemma DoneWritesAll(s: System)
    requires Inv(s) && !Failed(s) && s.command.Done?
    ensures s.command.answered ==> EndsWith(s.log.output, s.desk.next)
    ensures Responses(s.log.output) == Tickets(s.desk.next)
    ensures Events(s.log.output) == s.log.promised
  {
    assert Events(s.log.output) + [] + [] == Events(s.log.output);
  }

  /** Before the session is finished every ticket so far is answered. */
  lemma FinishFindsAnswers(s: System)
    requires Inv(s) && !Failed(s) && s.command.Finish?
    ensures Responses(s.log.output) == Tickets(s.desk.next)
  {
  }

  /** What any end of the session without output failure has written. */
  lemma EndWritesAll(before: seq<Step>, after: seq<Step>)
    requires Run(before).command.Finish?
    requires var n := RunFrom(Next(Run(before), CommandStep), after); n.command.Done? && !Failed(n)
    ensures var f, n := Run(before), RunFrom(Next(Run(before), CommandStep), after);
            n.command == Done(f.command.shutdown) && (f.command.shutdown ==> EndsWith(n.log.output, n.desk.next)) &&
            n.desk.next == f.desk.next + (if f.command.shutdown then 1 else 0) &&
            Responses(f.log.output) == Tickets(f.desk.next) && Responses(n.log.output) == Tickets(n.desk.next) &&
            Events(n.log.output) == Events(f.log.output) + InHand(f.writer, {}) + FramesOfAll(f.sink.queue, {})
  {
    var f := Run(before);
    EveryRunKeepsInv(before);
    NeverFailed(f, after);
    FinishPromises(f);
    PromiseKept(CommandNext(f), after, CommandNext(f).log.promised);
    EndAfterFinish(f, after);
    FinishFindsAnswers(f);
    DoneWritesAll(RunFrom(CommandNext(f), after));
  }

  lemma EndAfterFinish(f: System, after: seq<Step>)
    requires Inv(f) && f.command.Finish? && !Failed(f)
    ensures var n := RunFrom(CommandNext(f), after);
            Inv(n) && (Failed(n) || EndsAs(n, f.command.shutdown, LastTicket(f.command, f.desk)))
  {
    CommandKeepsInv(f);
    RunEndsAs(CommandNext(f), after, f.command.shutdown, LastTicket(f.command, f.desk));
  }

  lemma NeverFailed(f: System, after: seq<Step>)
    requires Inv(f) && !Failed(RunFrom(CommandNext(f), after))
    ensures !Failed(f)
  {
    CommandKeepsInv(f);
    if Failed(f) {
      FailedStays(f, CommandStep);
      FailureStays(CommandNext(f), after);
    }
  }

  lemma {:induction false} FailureStays(s: System, steps: seq<Step>)
    requires Inv(s) && Failed(s)
    ensures Inv(RunFrom(s, steps)) && Failed(RunFrom(s, steps))
    decreases |steps|
  {
    if steps != [] {
      var init := steps[..|steps| - 1];
      FailureStays(s, init);
      StepKeepsInv(RunFrom(s, init), steps[|steps| - 1]);
      FailedStays(RunFrom(s, init), steps[|steps| - 1]);
    }
  }

  /** Shutdown: if no write fails, it is answered. The output goes on with the frame that had
      passed its test when the session finished, if any, then every event frame that was
      deliverable then, in queue order, and then the one response of the shutdown, and nothing. */
  lemma ShutdownIsLast(before: seq<Step>, after: seq<Step>)
    requires Run(before).command == Finish(true)
    requires var n := RunFrom(Next(Run(before), CommandStep), after); n.command.Done? && !Failed(n)
    ensures var f, n := Run(before), RunFrom(Next(Run(before), CommandStep), after);
            n.command == Done(true) && EndsWith(n.log.output, f.desk.next + 1) &&
            Responses(n.log.output) == Responses(f.log.output) + [Response(f.desk.next + 1)] &&
            Events(n.log.output) == Events(f.log.output) + InHand(f.writer, {}) + FramesOfAll(f.sink.queue, {})
  {
    EndWritesAll(before, after);
    OneMoreTicket(Run(before).desk.next);
  }

  lemma OneMoreTicket(n: nat)
    ensures Tickets(n + 1) == Tickets(n) + [Response(n + 1)]
  {
  }

  /** The end of the input: if no write fails, the same event frames are written, and no
      response. */
  lemma EndOfInputIsLast(before: seq<Step>, after: seq<Step>)
    requires Run(before).command == Finish(false)
    requires var n := RunFrom(Next(Run(before), CommandStep), after); n.command.Done? && !Failed(n)
    ensures var f, n := Run(before), RunFrom(Next(Run(before), CommandStep), after);
            n.command == Done(false) && Responses(n.log.output) == Responses(f.log.output) &&
            Events(n.log.output) == Events(f.log.output) + InHand(f.writer, {}) + FramesOfAll(f.sink.queue, {})
  {
    EndWritesAll(before, after);
  }
}
