/** The inductive invariant of the recorder protocol. */
module RecorderInvariant {
  import opened CaptureMetadata
  import opened GateWord
  import opened RecorderProtocol

  // Classes of program points.

  /** The producer holds an accepted, unreleased gate entry. */
  predicate Holds(p: Producer) { p.Submitting? || p.Overflowing? }

  /** The row whose push is visible while submit() has not yet returned. */
  function InFlight(p: Producer): seq<Row> {
    if p.Submitting? && (p.at.Counting? || p.at.Leaving?) then [p.row] else []
  }

  /** Rows the writer has popped and not yet written. */
  function Held(w: Writer): seq<Row> {
    if w.Draining? then w.batch else []
  }

  /** Rows in the file that the written counter does not count yet. */
  function Untallied(w: Writer): nat {
    if w.Tallying? then w.count else if w.Draining? && w.drain.Tear? then w.drain.torn else 0
  }

  /** The points the writer can occupy while the state is Paused. */
  predicate Restful(w: Writer) {
    w == Draining([], Check) || w.Observing? || w.Resting? || (w.Erring? && w.next == CloseFlush)
  }

  /** start() has decided to record and the writer thread does not exist. */
  predicate Launching(c: Control) { c.Preparing? || c.Spawning? || c.Failing? }

  /** start() has checked that the gate is drained. */
  predicate CheckedDrained(c: Control) {
    c.Choosing? && !c.choice.LoadState_? && !c.choice.LoadGate? && c.choice != Paths(false)
  }

  /** The controller has closed the gate and has not opened it again. */
  predicate Shutting(c: Control) {
    c.PauseBody? || c.ResumeOpen? || c.StopBody? || c.Preparing? || c.Failing?
  }

  // The invariant, clause by clause. Each clause names the fields it depends on, so that
  // a step that leaves them alone keeps the clause.

  predicate GateClosed(
    open: bool, st: RecordingState, ioFailed: bool, p: Producer, c: Control, joinable: bool)
  {
    open ==>
      && (st.Recording? || (st.Error? && ioFailed))
      && !(p.Overflowing? && !p.overflow.FirstClose?)
      && !Shutting(c)
      && (joinable || c.Spawning?)
  }

  predicate EntryStates(holds: bool, st: RecordingState, c: Control) {
    holds ==>
      && !st.Idle? && !st.Starting? && !st.Paused?
      && !c.Preparing? && !c.ResumeOpen? && !CheckedDrained(c)
  }

  predicate StateOwners(joinable: bool, st: RecordingState, c: Control) {
    && (Launching(c) ==> !joinable)
    && (st.Pausing? ==> c == PauseBody(AwaitPaused))
    && (st.Stopping? ==> c == StopBody(AwaitDone))
    && (st.Starting? ==> c.Preparing? || c.Failing?)
  }

  /** Between operations. */
  predicate Settled(st: RecordingState, joinable: bool) {
    (st.Idle? && !joinable) || st.Recording? || st.Paused? || st.Error?
  }

  /** No submission is live, none can begin, and nothing is queued. */
  predicate Quiet(s: Recorder) {
    !s.gate.open && s.gate.live == 0 && s.queue == []
  }

  /** Nothing has been accepted, written or lost since start. */
  predicate Blank(s: Recorder) {
    s.log.accepted == [] && s.log.rows == [] && !s.log.lost
  }

  /** The state enter_error() last read: Error is final, and Idle is never read. */
  predicate Observed(point: ErrorPoint, st: RecordingState) {
    point.ErrorCas? ==> !point.seenState.Idle? && (point.seenState.Error? ==> st.Error?)
  }

  predicate ControlStates(
    c: Control, st: RecordingState, joinable: bool, ioFailed: bool, writerDone: bool,
    quiet: bool, blank: bool, rowless: bool)
  {
    match c
    case Ready => Settled(st, joinable)
    case ResumeMark => Settled(st, joinable)
    case Choosing(point) =>
      && Settled(st, joinable)
      && (!point.LoadState_? ==> !joinable)
      && (point == Paths(false) ==> st.Idle?)
    case Preparing(point) =>
      (if point.OpenGate? then st.Recording? else st.Starting?) && quiet && blank && rowless &&
      !writerDone && !ioFailed
    case Spawning(failed) =>
      (st.Recording? || st.Error?) && rowless && !writerDone && failed == ioFailed
    case Failing(point) =>
      if point.FailAnnounce? then (st.Error? && ioFailed) || (st.Idle? && quiet)
      else
        && ioFailed && !st.Idle?
        && (point.FailFinish? ==> st.Error?)
        && (point.FailError? ==> Observed(point.err, st))
    case PauseEntry(closing) =>
      if closing then joinable && (st.Recording? || st.Error?) else Settled(st, joinable)
    case PauseBody(point) =>
      joinable &&
      (match point
       case MarkPausing => st.Recording? || st.Error?
       case AwaitPaused => st.Pausing? || st.Paused? || st.Error?
       case PauseReturn => st.Paused? || st.Error?)
    case ResumeOpen => joinable && (st.Recording? || (st.Error? && ioFailed))
    case ResumeFailed => false
    case StopEntry(closing) =>
      if closing then st.Recording? || st.Paused? || st.Error? else Settled(st, joinable)
    case StopBody(point) =>
      (match point
       case ScanState => st.Recording? || st.Paused? || st.Error?
       case MarkStopping(seen) =>
         && (st.Recording? || st.Paused? || st.Error?)
         && !seen.Stopping? && (seen.Error? ==> st.Error?)
       case AwaitDone => st.Stopping? || st.Error? || st.Idle?
       case Join => (st.Error? || st.Idle?) && writerDone
       case StopReturn => (st.Error? || st.Idle?) && !joinable)
  }

  /** The writer acts on an observed state that only Error can have replaced. */
  predicate Knows(seen: RecordingState, st: RecordingState, c: Control) {
    match seen
    case Pausing => c == PauseBody(AwaitPaused) && (st.Pausing? || st.Error?)
    case Stopping => c == StopBody(AwaitDone) && (st.Stopping? || st.Error?)
    case Error => st.Error?
    case _ => false
  }

  predicate Loops(st: RecordingState, ioFailed: bool, writerDone: bool) {
    !ioFailed && !writerDone && !st.Idle? && !st.Starting?
  }

  /** The writer has left its loop. */
  predicate Ended(st: RecordingState, c: Control, ioFailed: bool, quiet: bool) {
    && (st.Error? || (st.Idle? && (c == StopBody(AwaitDone) || c == StopBody(Join))))
    && (ioFailed || quiet)
  }

  predicate WriterStates(
    w: Writer, c: Control, st: RecordingState, ioFailed: bool, writerDone: bool,
    quiet: bool, shut: bool)
  {
    match w
    case NoWriter => Launching(c) || ((st.Error? || st.Idle?) && (ioFailed || quiet))
    case Draining(_, _) => Loops(st, ioFailed, writerDone)
    case Tallying(_) => Loops(st, ioFailed, writerDone)
    case Observing => Loops(st, ioFailed, writerDone)
    case Resting(_) => Loops(st, ioFailed, writerDone)
    case Checking(seen, gateDrained) =>
      Loops(st, ioFailed, writerDone) && Knows(seen, st, c) && (gateDrained ==> shut)
    case PauseDrained(_) => Loops(st, ioFailed, writerDone) && Knows(Pausing, st, c) && quiet
    case Finalizing(_) => Loops(st, ioFailed, writerDone) && Knows(Stopping, st, c) && quiet
    case Erring(point, next) =>
      && ioFailed && !writerDone && !st.Idle? && !st.Starting?
      && (next.CloseFlush? || st.Error?)
      && Observed(point, st)
    case Closing(_) => st.Error? && !writerDone && (ioFailed || quiet)
    case Announcing => !writerDone && Ended(st, c, ioFailed, quiet)
    case Exited => writerDone && Ended(st, c, ioFailed, quiet)
  }

  predicate QueueStates(
    st: RecordingState, queue: seq<Row>, lost: bool, w: Writer, c: Control, p: Producer,
    ioFailed: bool)
  {
    && (st.Idle? ==> queue == [])
    && (st.Paused? ==> queue == [] && !lost && Restful(w))
    && (c == Choosing(Reset) ==> queue == [])
    && (c == Choosing(DiscardTake) ==> queue != [] && ioFailed)
    && |queue| <= CAPACITY
    && (p.Submitting? && p.at.Publishing? ==> |queue| < CAPACITY)
  }

  predicate WriterLocals(w: Writer, queue: seq<Row>, rowCount: nat) {
    match w
    case Draining(batch, point) =>
      && |batch| <= BATCH_SIZE
      && (point.Take? ==> queue != [] && |batch| < BATCH_SIZE)
      && (point.Emit? ==> batch != [])
      && (point.Tear? ==> batch != [] || point.torn > 0)
    case Finalizing(LoadWritten(a)) => a == rowCount
    case Finalizing(FinishMetadata(a, w)) => a == rowCount == w
    case _ => true
  }

  /** Where every accepted row is: in the file, in the writer's batch, or queued. */
  predicate Conserved(
    lost: bool, rows: seq<Row>, held: seq<Row>, queue: seq<Row>, accepted: seq<Row>,
    inFlight: seq<Row>)
  {
    if lost then rows <= accepted + inFlight
    else accepted + inFlight == rows + held + queue
  }

  /** The clauses about who may be where. */
  predicate Shape(s: Recorder) {
    && s.gate.live == (if Holds(s.producer) then 1 else 0)
    && (s.log.lost ==> s.log.ioFailed)
    && GateClosed(s.gate.open, s.state, s.log.ioFailed, s.producer, s.control, s.Joinable())
    && EntryStates(Holds(s.producer), s.state, s.control)
    && StateOwners(s.Joinable(), s.state, s.control)
    && ControlStates(s.control, s.state, s.Joinable(), s.log.ioFailed, s.writerDone,
                     Quiet(s), Blank(s), s.log.rows == [])
    && WriterStates(s.writer, s.control, s.state, s.log.ioFailed, s.writerDone,
                    Quiet(s), s.gate == SHUT)
    && QueueStates(s.state, s.queue, s.log.lost, s.writer, s.control, s.producer, s.log.ioFailed)
  }

  /** The clauses about the rows. */
  predicate Accounts(
    acceptedCounter: nat, accepted: seq<Row>, p: Producer, queue: seq<Row>, w: Writer,
    writtenCounter: nat, rows: seq<Row>, lost: bool)
  {
    && acceptedCounter == |accepted| + (if p.Submitting? && p.at.Leaving? then 1 else 0)
    && (if lost then writtenCounter + Untallied(w) <= |rows| else writtenCounter + Untallied(w) == |rows|)
    && WriterLocals(w, queue, |rows|)
    && Conserved(lost, rows, Held(w), queue, accepted, InFlight(p))
  }

  predicate Books(s: Recorder) {
    Accounts(s.tally.accepted, s.log.accepted, s.producer, s.queue, s.writer,
             s.tally.written, s.log.rows, s.log.lost)
  }

  predicate Inv(s: Recorder) {
    Shape(s) && Books(s)
  }

  lemma InitialInv(s: Recorder)
    requires s == INITIAL
    ensures Inv(s)
  {
  }

  // The producer. Each group of steps keeps the shape by itself; the books need the shape
  // only where a guard depends on it.

  lemma KnockKeepsInv(s: Recorder, row: Row, spurious: bool)
    requires Inv(s) && (s.producer.Outside? || s.producer.Rejected?)
    ensures Inv(NextProducer(s, row, spurious))
  {
  }

  lemma EnterTurnedAway(s: Recorder, row: Row, seen: Admission, now: Producer)
    requires Shape(s) && s.producer == Entering(row, seen) && (now.Rejected? || now.Entering?)
    ensures Shape(s.(producer := now))
  {
  }

  lemma EnterAdmitted(s: Recorder, row: Row, seen: Admission)
    requires Shape(s) && s.producer == Entering(row, seen) && s.gate.open
    ensures Shape(s.(gate := s.gate.Entered(), producer := Submitting(row, Admitted)))
  {
  }

  lemma EnterShape(s: Recorder, row: Row, seen: Admission, spurious: bool)
    requires Shape(s) && s.producer == Entering(row, seen)
    ensures Shape(Enter(s, row, seen, spurious))
  {
    if !seen.open || seen.live == COUNT_MASK {
      EnterTurnedAway(s, row, seen, Rejected);
    } else if s.gate != seen || spurious {
      EnterTurnedAway(s, row, seen, Entering(row, s.gate));
    } else {
      EnterAdmitted(s, row, seen);
    }
  }

  lemma EnterBooks(s: Recorder, row: Row, seen: Admission, spurious: bool)
    requires Books(s) && s.producer == Entering(row, seen)
    ensures Books(Enter(s, row, seen, spurious))
  {
  }

  lemma AdmittedShape(s: Recorder, row: Row)
    requires Shape(s) && s.producer == Submitting(row, Admitted)
    ensures Shape(Submit(s, row, Admitted))
  {
  }

  lemma PublishingShape(s: Recorder, row: Row)
    requires Shape(s) && s.producer == Submitting(row, Publishing)
    ensures Shape(Submit(s, row, Publishing))
  {
  }

  lemma SubmitEarlyBooks(s: Recorder, row: Row, at: SubmitPoint)
    requires Inv(s) && s.producer == Submitting(row, at) && (at.Admitted? || at.Publishing?)
    ensures Books(Submit(s, row, at))
  {
    assert s.log.rows + Held(s.writer) + (s.queue + [row]) == s.log.rows + Held(s.writer) + s.queue + [row];
  }

  lemma SubmitLateKeepsInv(s: Recorder, row: Row, at: SubmitPoint)
    requires Inv(s) && s.producer == Submitting(row, at) && (at.Counting? || at.Leaving?)
    ensures Inv(Submit(s, row, at))
  {
  }

  lemma OverflowCloseShape(s: Recorder, point: OverflowPoint, spurious: bool)
    requires Shape(s) && s.producer == Overflowing(point) && (point.FirstClose? || point.SecondClose? || point.SetFlag?)
    ensures Shape(Overflow(s, point, spurious))
  {
  }

  lemma OverflowMoves(s: Recorder, now: OverflowPoint)
    requires Shape(s) && s.producer.Overflowing? && !s.producer.overflow.FirstClose? && !now.FirstClose?
    ensures Shape(s.(producer := Overflowing(now)))
  {
  }

  lemma OverflowMarks(s: Recorder)
    requires Shape(s) && s.producer.Overflowing? && s.producer.overflow.CasState? && s.state != Idle
    ensures Shape(s.(state := Error, producer := Overflowing(LeaveFull)))
  {
  }

  lemma OverflowErrorShape(s: Recorder, point: OverflowPoint, spurious: bool)
    requires Shape(s) && s.producer == Overflowing(point) && (point.LoadState? || point.CasState?)
    ensures Shape(Overflow(s, point, spurious))
  {
    match point
    case LoadState => OverflowMoves(s, CasState(s.state));
    case CasState(seen) =>
      if seen == Error || seen == Idle {
        OverflowMoves(s, LeaveFull);
      } else if s.state != seen || spurious {
        OverflowMoves(s, CasState(s.state));
      } else {
        OverflowMarks(s);
      }
  }

  lemma OverflowLeaveShape(s: Recorder, point: OverflowPoint, spurious: bool)
    requires Shape(s) && s.producer == Overflowing(point) && point.LeaveFull?
    ensures Shape(Overflow(s, point, spurious))
  {
  }

  lemma OverflowBooks(s: Recorder, point: OverflowPoint, spurious: bool)
    requires Books(s) && s.producer == Overflowing(point)
    ensures Books(Overflow(s, point, spurious))
  {
  }

  lemma ProducerKeepsInv(s: Recorder, row: Row, spurious: bool)
    requires Inv(s)
    ensures Inv(NextProducer(s, row, spurious))
  {
    match s.producer
    case Outside => KnockKeepsInv(s, row, spurious);
    case Rejected => KnockKeepsInv(s, row, spurious);
    case Entering(x, seen) => EnterShape(s, x, seen, spurious); EnterBooks(s, x, seen, spurious);
    case Submitting(x, at) =>
      if at.Admitted? || at.Publishing? {
        if at.Admitted? {
          AdmittedShape(s, x);
        } else {
          PublishingShape(s, x);
        }
        SubmitEarlyBooks(s, x, at);
      } else {
        SubmitLateKeepsInv(s, x, at);
      }
    case Overflowing(point) =>
      OverflowBooks(s, point, spurious);
      if point.LeaveFull? {
        OverflowLeaveShape(s, point, spurious);
      } else if point.LoadState? || point.CasState? {
        OverflowErrorShape(s, point, spurious);
      } else {
        OverflowCloseShape(s, point, spurious);
      }
  }

  // The writer.

  /** The writer moves within its loop. */
  lemma DrainMoves(s: Recorder, w: Writer)
    requires Shape(s) && s.writer.Draining?
    requires w.Observing? || (w.Draining? && !s.state.Paused?)
    ensures Shape(s.(writer := w))
  {
  }

  lemma ChecksShape(s: Recorder, batch: seq<Row>)
    requires Shape(s) && s.writer == Draining(batch, Check)
    ensures Shape(Drain(s, batch, Check, true))
  {
    if |batch| < BATCH_SIZE && s.queue != [] {
      DrainMoves(s, Draining(batch, Take));
    } else if batch == [] {
      DrainMoves(s, Observing);
    } else {
      DrainMoves(s, Draining(batch, Emit));
    }
  }

  /** Moving to the next point of the drain loop touches no row. */
  lemma CheckMoves(s: Recorder, batch: seq<Row>, now: Writer)
    requires Books(s) && s.writer == Draining(batch, Check)
    requires (now == Draining(batch, Take) && |batch| < BATCH_SIZE && s.queue != []) ||
             (now == Observing && batch == []) || (now == Draining(batch, Emit) && batch != [])
    ensures Books(s.(writer := now))
  {
  }

  lemma ChecksBooks(s: Recorder, batch: seq<Row>)
    requires Books(s) && s.writer == Draining(batch, Check)
    ensures Books(Drain(s, batch, Check, true))
  {
    CheckMoves(s, batch, Drain(s, batch, Check, true).writer);
  }

  lemma TakesShape(s: Recorder, batch: seq<Row>)
    requires Shape(s) && s.writer == Draining(batch, Take) && s.queue != []
    ensures Shape(Drain(s, batch, Take, true))
  {
  }

  lemma TakesBooks(s: Recorder, batch: seq<Row>)
    requires Inv(s) && s.writer == Draining(batch, Take) && s.queue != []
    ensures Books(Drain(s, batch, Take, true))
  {
    var row, rest := s.queue[0], s.queue[1..];
    assert s.queue == [row] + rest;
    assert s.log.rows + (batch + [row]) + rest == s.log.rows + batch + s.queue;
  }

  lemma EmitsShape(s: Recorder, batch: seq<Row>, ok: bool)
    requires Shape(s) && s.writer == Draining(batch, Emit) && !s.state.Paused?
    ensures Shape(Drain(s, batch, Emit, ok))
  {
  }

  lemma EmitsBooks(s: Recorder, batch: seq<Row>, ok: bool)
    requires Inv(s) && s.writer == Draining(batch, Emit)
    ensures Books(Drain(s, batch, Emit, ok))
  {
    assert s.log.rows + batch + [] == s.log.rows + batch;
  }

  lemma TearsShape(s: Recorder, batch: seq<Row>, torn: nat, ok: bool)
    requires Shape(s) && s.writer == Draining(batch, Tear(torn))
    ensures Shape(Drain(s, batch, Tear(torn), ok))
  {
  }

  lemma TearsBooks(s: Recorder, batch: seq<Row>, torn: nat, ok: bool)
    requires Inv(s) && s.writer == Draining(batch, Tear(torn))
    ensures Books(Drain(s, batch, Tear(torn), ok))
  {
    if ok && batch != [] {
      assert batch == [batch[0]] + batch[1..];
      assert s.log.rows + [batch[0]] + batch[1..] == s.log.rows + batch;
    }
  }

  lemma DrainKeepsInv(s: Recorder, batch: seq<Row>, point: DrainPoint, ok: bool)
    requires Inv(s) && s.writer == Draining(batch, point)
    ensures Inv(Drain(s, batch, point, ok))
  {
    match point
    case Check =>
      ChecksShape(s, batch);
      ChecksBooks(s, batch);
    case Take =>
      TakesShape(s, batch);
      TakesBooks(s, batch);
    case Emit =>
      EmitsShape(s, batch, ok);
      EmitsBooks(s, batch, ok);
    case Tear(torn) =>
      TearsShape(s, batch, torn, ok);
      TearsBooks(s, batch, torn, ok);
  }

  lemma ObservesRest(s: Recorder)
    requires Shape(s) && s.writer.Observing?
    ensures Shape(s.(writer := Resting(TimedFlush)))
  {
  }

  lemma ObservesEnd(s: Recorder)
    requires Shape(s) && s.writer.Observing? && (s.state == Pausing || s.state == Stopping || s.state == Error)
    ensures Shape(s.(writer := Checking(s.state, false)))
  {
  }

  lemma ObserveShape(s: Recorder)
    requires Shape(s) && s.writer.Observing?
    ensures Shape(Observe(s))
  {
    if s.state == Pausing || s.state == Stopping || s.state == Error {
      ObservesEnd(s);
    } else {
      ObservesRest(s);
    }
  }

  lemma ObserveBooks(s: Recorder)
    requires Books(s) && s.writer.Observing?
    ensures Books(Observe(s))
  {
  }

  lemma ObserveKeepsInv(s: Recorder)
    requires Inv(s) && s.writer.Observing?
    ensures Inv(Observe(s))
  {
    ObserveShape(s);
    ObserveBooks(s);
  }

  lemma TallyKeepsInv(s: Recorder, ok: bool, due: bool)
    requires Inv(s) && (s.writer.Tallying? || s.writer.Announcing?)
    ensures Inv(NextWriter(s, ok, due))
  {
  }

  lemma CheckKeepsInv(s: Recorder, seen: RecordingState, gateDrained: bool)
    requires Inv(s) && s.writer == Checking(seen, gateDrained)
    ensures Inv(CheckDrained(s, seen, gateDrained))
  {
  }

  lemma CompletePauseKeepsInv(s: Recorder, flushed: bool, ok: bool)
    requires Inv(s) && s.writer == PauseDrained(flushed)
    ensures Inv(CompletePause(s, flushed, ok))
  {
  }

  lemma FinalizeFileShape(s: Recorder, point: FinalPoint, ok: bool)
    requires Shape(s) && s.writer == Finalizing(point) && (point.StopFlush? || point.StopClose?)
    ensures Shape(Finalize(s, point, ok))
  {
  }

  lemma FinalizeNameShape(s: Recorder, point: FinalPoint, ok: bool)
    requires Shape(s) && s.writer == Finalizing(point) && (point.Promote? || point.CreateMetadata?)
    ensures Shape(Finalize(s, point, ok))
  {
    if ok {
      FinalizeMoves(s, Finalize(s, point, true).writer, Finalize(s, point, true).log.archive);
    } else {
      FinalizeFails(s);
    }
  }

  lemma FinalizeMoves(s: Recorder, now: Writer, archive: Archive)
    requires Shape(s) && s.writer.Finalizing? && now.Finalizing?
    ensures Shape(s.(writer := now, log := s.log.(archive := archive)))
  {
  }

  lemma FinalizeFails(s: Recorder)
    requires Shape(s) && s.writer.Finalizing?
    ensures Shape(WriterFails(s))
  {
  }

  lemma FinalizeEarlyShape(s: Recorder, point: FinalPoint, ok: bool)
    requires Shape(s) && s.writer == Finalizing(point) &&
             (point.StopFlush? || point.StopClose? || point.Promote? || point.CreateMetadata?)
    ensures Shape(Finalize(s, point, ok))
  {
    if point.StopFlush? || point.StopClose? {
      FinalizeFileShape(s, point, ok);
    } else {
      FinalizeNameShape(s, point, ok);
    }
  }

  lemma FinalizeLateShape(s: Recorder, point: FinalPoint, ok: bool)
    requires Shape(s) && s.writer == Finalizing(point) &&
             (point.LoadAccepted? || point.LoadWritten? || point.FinishMetadata? || point.CommitIdle?)
    ensures Shape(Finalize(s, point, ok))
  {
  }

  lemma FinalizeBooks(s: Recorder, point: FinalPoint, ok: bool)
    requires Inv(s) && s.writer == Finalizing(point)
    ensures Books(Finalize(s, point, ok))
  {
  }

  lemma RestShape(s: Recorder, point: RestPoint, ok: bool, due: bool)
    requires Shape(s) && s.writer == Resting(point)
    ensures Shape(Rest(s, point, ok, due))
  {
  }

  lemma RestBooks(s: Recorder, point: RestPoint, ok: bool, due: bool)
    requires Books(s) && s.writer == Resting(point)
    ensures Books(Rest(s, point, ok, due))
  {
  }

  lemma ErrorMoves(s: Recorder, point: ErrorPoint, next: ClosePoint, now: ErrorPoint)
    requires Shape(s) && s.writer == Erring(point, next) && Observed(now, s.state)
    ensures Shape(s.(writer := Erring(now, next)))
  {
  }

  lemma ErrorShuts(s: Recorder, next: ClosePoint)
    requires Shape(s) && s.writer == Erring(ErrorClose, next)
    ensures Shape(WriterError(s, ErrorClose, next, true))
  {
  }

  lemma ErrorMarks(s: Recorder, seen: RecordingState, next: ClosePoint)
    requires Shape(s) && s.writer == Erring(ErrorCas(seen), next)
    requires seen == Error || s.state == seen
    ensures Shape(s.(state := Error, writer := Closing(next)))
  {
  }

  lemma WriterErrorShape(s: Recorder, point: ErrorPoint, next: ClosePoint, ok: bool)
    requires Shape(s) && s.writer == Erring(point, next)
    ensures Shape(WriterError(s, point, next, ok))
  {
    match point
    case ErrorClose => ErrorShuts(s, next);
    case ErrorLoad => ErrorMoves(s, point, next, ErrorCas(s.state));
    case ErrorCas(seen) =>
      if seen != Error && (s.state != seen || !ok) {
        ErrorMoves(s, point, next, ErrorCas(s.state));
      } else {
        ErrorMarks(s, seen, next);
      }
  }

  lemma ErringBooks(s: Recorder, now: Writer)
    requires Books(s) && s.writer.Erring? && (now.Erring? || now.Closing?)
    ensures Books(s.(writer := now))
  {
  }

  lemma WriterErrorBooks(s: Recorder, point: ErrorPoint, next: ClosePoint, ok: bool)
    requires Books(s) && s.writer == Erring(point, next)
    ensures Books(WriterError(s, point, next, ok))
  {
    ErringBooks(s, WriterError(s, point, next, ok).writer);
  }

  lemma CloseFlushShape(s: Recorder, ok: bool)
    requires Shape(s) && s.writer == Closing(CloseFlush)
    ensures Shape(CloseFile(s, CloseFlush, ok))
  {
  }

  lemma CloseCloseShape(s: Recorder, ok: bool)
    requires Shape(s) && s.writer == Closing(CloseClose)
    ensures Shape(CloseFile(s, CloseClose, ok))
  {
  }

  lemma CloseDropShape(s: Recorder)
    requires Shape(s) && s.writer == Closing(CloseDrop)
    ensures Shape(CloseFile(s, CloseDrop, true))
  {
  }

  lemma CloseFileShape(s: Recorder, point: ClosePoint, ok: bool)
    requires Shape(s) && s.writer == Closing(point)
    ensures Shape(CloseFile(s, point, ok))
  {
    match point
    case CloseFlush => CloseFlushShape(s, ok);
    case CloseClose => CloseCloseShape(s, ok);
    case CloseDrop => CloseDropShape(s);
  }

  lemma CloseFileBooks(s: Recorder, point: ClosePoint, ok: bool)
    requires Inv(s) && s.writer == Closing(point)
    ensures Books(CloseFile(s, point, ok))
  {
  }

  lemma WriterKeepsInv(s: Recorder, ok: bool, due: bool)
    requires Inv(s)
    ensures Inv(NextWriter(s, ok, due))
  {
    match s.writer
    case Draining(batch, point) => DrainKeepsInv(s, batch, point, ok);
    case Checking(seen, gateDrained) => CheckKeepsInv(s, seen, gateDrained);
    case PauseDrained(flushed) => CompletePauseKeepsInv(s, flushed, ok);
    case Finalizing(point) =>
      FinalizeBooks(s, point, ok);
      if point.StopFlush? || point.StopClose? || point.Promote? || point.CreateMetadata? {
        FinalizeEarlyShape(s, point, ok);
      } else {
        FinalizeLateShape(s, point, ok);
      }
    case Resting(point) => RestShape(s, point, ok, due); RestBooks(s, point, ok, due);
    case Erring(point, next) => WriterErrorShape(s, point, next, ok); WriterErrorBooks(s, point, next, ok);
    case Closing(point) => CloseFileShape(s, point, ok); CloseFileBooks(s, point, ok);
    case Observing => ObserveKeepsInv(s);
    case NoWriter =>
    case Exited =>
    case _ => TallyKeepsInv(s, ok, due);
  }

  // The control operations.

  lemma ChooseStateShape(s: Recorder, point: ChoicePoint, ok: bool)
    requires Shape(s) && s.control == Choosing(point) && (point.LoadState_? || point.LoadGate?)
    ensures Shape(Choose(s, point, ok))
  {
  }

  lemma ChoosePathsShape(s: Recorder, point: ChoicePoint, ok: bool)
    requires Shape(s) && s.control == Choosing(point) && (point.LoadDone? || point.Paths?)
    ensures Shape(Choose(s, point, ok))
  {
  }

  lemma ChooseEarlyShape(s: Recorder, point: ChoicePoint, ok: bool)
    requires Shape(s) && s.control == Choosing(point) &&
             (point.LoadState_? || point.LoadGate? || point.LoadDone? || point.Paths?)
    ensures Shape(Choose(s, point, ok))
  {
    if point.LoadState_? || point.LoadGate? {
      ChooseStateShape(s, point, ok);
    } else {
      ChoosePathsShape(s, point, ok);
    }
  }

  lemma ChooseLateShape(s: Recorder, point: ChoicePoint, ok: bool)
    requires Shape(s) && s.control == Choosing(point) && (point.Discard? || point.DiscardTake? || point.Reset?)
    ensures Shape(Choose(s, point, ok))
  {
  }

  lemma PrepareKeepsInv(s: Recorder, point: PreparePoint, ok: bool, thrown: bool)
    requires Inv(s) && s.control == Preparing(point)
    ensures Inv(Prepare(s, point, ok, thrown))
  {
  }

  lemma SpawnKeepsInv(s: Recorder, failed: bool, ok: bool)
    requires Inv(s) && s.control == Spawning(failed)
    ensures Inv(Spawn(s, failed, ok))
  {
  }

  lemma FailErrorShape(s: Recorder, point: FailPoint, ok: bool)
    requires Shape(s) && s.control == Failing(point) && point.FailError? && !point.err.ErrorCas?
    ensures Shape(Fail(s, point, ok))
  {
  }

  lemma FailCasShape(s: Recorder, point: FailPoint, ok: bool)
    requires Shape(s) && s.control == Failing(point) && point.FailError? && point.err.ErrorCas?
    ensures Shape(Fail(s, point, ok))
  {
  }

  lemma FailLastShape(s: Recorder, point: FailPoint, ok: bool)
    requires Shape(s) && s.control == Failing(point) && !point.FailError?
    ensures Shape(Fail(s, point, ok))
  {
  }

  lemma EnterPauseShape(s: Recorder, closing: bool)
    requires Shape(s) && s.control == PauseEntry(closing)
    ensures Shape(EnterPause(s, closing))
  {
  }

  lemma EnterStopShape(s: Recorder, closing: bool)
    requires Shape(s) && s.control == StopEntry(closing)
    ensures Shape(EnterStop(s, closing))
  {
  }

  lemma ResumeLeavesShape(s: Recorder)
    requires Shape(s) && s.control.ResumeMark?
    ensures Shape(s.(control := Ready))
  {
  }

  lemma ResumeMarksShape(s: Recorder)
    requires Shape(s) && s.control.ResumeMark? && s.state == Paused
    ensures Shape(s.(state := Recording, control := ResumeOpen))
  {
  }

  lemma MarkResumedShape(s: Recorder)
    requires Shape(s) && s.control.ResumeMark?
    ensures Shape(MarkResumed(s))
  {
    if s.state == Paused {
      ResumeMarksShape(s);
    } else {
      ResumeLeavesShape(s);
    }
  }

  lemma OpenResumedShape(s: Recorder)
    requires Shape(s) && s.control.ResumeOpen?
    ensures Shape(OpenResumed(s))
  {
  }

  lemma PauseMarksShape(s: Recorder)
    requires Shape(s) && s.control == PauseBody(MarkPausing) && s.state == Recording
    ensures Shape(s.(state := Pausing, control := PauseBody(AwaitPaused)))
  {
  }

  lemma PauseMissesShape(s: Recorder)
    requires Shape(s) && s.control == PauseBody(MarkPausing) && s.state == Error
    ensures Shape(s.(control := PauseBody(AwaitPaused)))
  {
  }

  lemma PauseMarkShape(s: Recorder)
    requires Shape(s) && s.control == PauseBody(MarkPausing)
    ensures Shape(PauseStep(s, MarkPausing))
  {
    if s.state == Recording {
      PauseMarksShape(s);
    } else {
      PauseMissesShape(s);
    }
  }

  lemma PauseWaitShape(s: Recorder, point: PausePoint)
    requires Shape(s) && s.control == PauseBody(point) && !point.MarkPausing?
    ensures Shape(PauseStep(s, point))
  {
  }

  lemma PauseStepShape(s: Recorder, point: PausePoint)
    requires Shape(s) && s.control == PauseBody(point)
    ensures Shape(PauseStep(s, point))
  {
    if point.MarkPausing? {
      PauseMarkShape(s);
    } else {
      PauseWaitShape(s, point);
    }
  }

  lemma StopScanShape(s: Recorder, ok: bool)
    requires Shape(s) && s.control == StopBody(ScanState)
    ensures Shape(StopStep(s, ScanState, ok))
  {
  }

  lemma StopMarkShape(s: Recorder, seen: RecordingState, ok: bool)
    requires Shape(s) && s.control == StopBody(MarkStopping(seen))
    ensures Shape(StopStep(s, MarkStopping(seen), ok))
  {
    if seen == Error || seen == Stopping {
      StopSeenShape(s, seen);
    } else if s.state == seen && ok {
      StopMarkedShape(s, seen);
    } else {
      StopRescanShape(s, seen);
    }
  }

  lemma StopSeenShape(s: Recorder, seen: RecordingState)
    requires Shape(s) && s.control == StopBody(MarkStopping(seen)) && (seen == Error || seen == Stopping)
    ensures Shape(s.(control := StopBody(AwaitDone)))
  {
  }

  lemma StopRescanShape(s: Recorder, seen: RecordingState)
    requires Shape(s) && s.control == StopBody(MarkStopping(seen))
    ensures Shape(s.(control := StopBody(MarkStopping(s.state))))
  {
  }

  lemma StopMarkedShape(s: Recorder, seen: RecordingState)
    requires Shape(s) && s.control == StopBody(MarkStopping(seen))
    requires seen != Error && seen != Stopping && s.state == seen
    ensures Shape(s.(state := Stopping, control := StopBody(AwaitDone)))
  {
  }

  lemma StopWaitShape(s: Recorder, point: StopPoint, ok: bool)
    requires Shape(s) && s.control == StopBody(point) && !point.ScanState? && !point.MarkStopping?
    ensures Shape(StopStep(s, point, ok))
  {
  }

  lemma BeginKeepsInv(s: Recorder, operation: Operation)
    requires Inv(s) && s.control.Ready?
    ensures Inv(Begin(s, operation))
  {
  }

  lemma ChooseBooks(s: Recorder, point: ChoicePoint, ok: bool)
    requires Inv(s) && s.control == Choosing(point)
    ensures Books(Choose(s, point, ok))
  {
  }

  lemma FailBooks(s: Recorder, point: FailPoint, ok: bool)
    requires Inv(s) && s.control == Failing(point)
    ensures Books(Fail(s, point, ok))
  {
  }

  lemma StartKeepsInv(s: Recorder, ok: bool, thrown: bool)
    requires Inv(s)
    requires s.control.Choosing? || s.control.Preparing? || s.control.Spawning? || s.control.Failing?
    ensures Inv(NextControl(s, ok, thrown))
  {
    match s.control
    case Choosing(point) =>
      ChooseBooks(s, point, ok);
      if point.Discard? || point.DiscardTake? || point.Reset? {
        ChooseLateShape(s, point, ok);
      } else {
        ChooseEarlyShape(s, point, ok);
      }
    case Preparing(point) => PrepareKeepsInv(s, point, ok, thrown);
    case Spawning(failed) => SpawnKeepsInv(s, failed, ok);
    case Failing(point) =>
      FailBooks(s, point, ok);
      if !point.FailError? {
        FailLastShape(s, point, ok);
      } else if point.err.ErrorCas? {
        FailCasShape(s, point, ok);
      } else {
        FailErrorShape(s, point, ok);
      }
  }

  // Pausing, stopping and resuming touch no row and no counter.

  lemma EntryBooks(s: Recorder)
    requires Books(s)
    ensures s.control.PauseEntry? ==> Books(EnterPause(s, s.control.closing))
    ensures s.control.StopEntry? ==> Books(EnterStop(s, s.control.closing))
    ensures s.control.ResumeMark? ==> Books(MarkResumed(s))
    ensures s.control.ResumeOpen? ==> Books(OpenResumed(s))
  {
  }

  lemma PauseBooks(s: Recorder, point: PausePoint)
    requires Books(s)
    ensures Books(PauseStep(s, point))
  {
  }

  lemma StopBooks(s: Recorder, point: StopPoint, ok: bool)
    requires Books(s) && s.control == StopBody(point)
    ensures Books(StopStep(s, point, ok))
  {
  }

  lemma StopKeepsInv(s: Recorder, point: StopPoint, ok: bool)
    requires Inv(s) && s.control == StopBody(point)
    ensures Inv(StopStep(s, point, ok))
  {
    StopBooks(s, point, ok);
    if point.ScanState? {
      StopScanShape(s, ok);
    } else if point.MarkStopping? {
      StopMarkShape(s, point.seenState, ok);
    } else {
      StopWaitShape(s, point, ok);
    }
  }

  lemma ControlKeepsInv(s: Recorder, ok: bool, thrown: bool)
    requires Inv(s)
    ensures Inv(NextControl(s, ok, thrown))
  {
    EntryBooks(s);
    match s.control
    case PauseBody(point) =>
      PauseStepShape(s, point);
      PauseBooks(s, point);
    case StopBody(point) => StopKeepsInv(s, point, ok);
    case Ready =>
    case PauseEntry(closing) => EnterPauseShape(s, closing);
    case StopEntry(closing) => EnterStopShape(s, closing);
    case ResumeMark => MarkResumedShape(s);
    case ResumeOpen => OpenResumedShape(s);
    case ResumeFailed => assert false;
    case _ => StartKeepsInv(s, ok, thrown);
  }

  lemma StepKeepsInv(s: Recorder, step: Step)
    requires Inv(s)
    ensures Inv(Next(s, step))
  {
    match step
    case Produce(row, spurious) => ProducerKeepsInv(s, row, spurious);
    case Write(ok, due) => WriterKeepsInv(s, ok, due);
    case Command(operation) =>
      if s.control == Ready {
        BeginKeepsInv(s, operation);
      }
    case Act(ok, thrown) => ControlKeepsInv(s, ok, thrown);
  }
}
