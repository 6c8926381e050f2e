/** The recorder as a protocol of three threads: the producer in submit(), the writer
    loop, and the one control operation (start, pause, resume or stop) that holds the
    operation mutex. A step is one shared atomic access, one section of the wait mutex,
    or one file operation with its outcome chosen by the environment. The admission word
    appears as its two fields (`GateWord.WordRefinesAdmission`) and the ring as the
    FIFO it refines (`RecordingQueue.RingRefinesFifo`). */
module RecorderProtocol {
  import opened Wrappers
  import opened CaptureMetadata
  import opened GateWord

  const CAPACITY: nat := 65536
  const BATCH_SIZE: nat := 512

  datatype RecordingState = Idle | Starting | Recording | Pausing | Paused | Stopping | Error

  /** Program points of submit(). */
  datatype Producer =
    | Outside
    | Entering(row: Row, seen: Admission)
    | Rejected
    | Submitting(row: Row, at: SubmitPoint)
    | Overflowing(overflow: OverflowPoint)

  datatype SubmitPoint = Admitted | Publishing | Counting | Leaving

  datatype OverflowPoint =
    | FirstClose | SecondClose | SetFlag | LoadState | CasState(seenState: RecordingState) | LeaveFull

  /** Program points of the writer thread. */
  datatype Writer =
    | NoWriter  // not joinable
    | Draining(batch: seq<Row>, drain: DrainPoint)
    | Tallying(count: nat)
    | Observing
    | Checking(seen: RecordingState, gateDrained: bool)
    | PauseDrained(flushed: bool)
    | Finalizing(final: FinalPoint)
    | Resting(rest: RestPoint)
    | Erring(err: ErrorPoint, next: ClosePoint)
    | Closing(close: ClosePoint)
    | Announcing
    | Exited

  /** A write that fails may leave any number of the batch's rows in the file: Tear counts them.
      Part of a row at the end of the file is not a row. */
  datatype DrainPoint = Check | Take | Emit | Tear(torn: nat)

  datatype FinalPoint =
    | StopFlush | StopClose | Promote | CreateMetadata | LoadAccepted
    | LoadWritten(acceptedCount: nat)
    | FinishMetadata(acceptedTotal: nat, writtenTotal: nat)
    | CommitIdle

  datatype RestPoint = TimedFlush | Wait | WaitPaused

  /** enter_error(): close the gate, then move the state to Error. */
  datatype ErrorPoint = ErrorClose | ErrorLoad | ErrorCas(seenState: RecordingState)

  /** finish_error_file(): flush, close, then drop the file. */
  datatype ClosePoint = CloseFlush | CloseClose | CloseDrop

  /** Program points of the control operations. */
  datatype Control =
    | Ready
    | Choosing(choice: ChoicePoint)
    | Preparing(prepare: PreparePoint)
    | Spawning(failed: bool)
    | Failing(fail: FailPoint)
    | PauseEntry(closing: bool)
    | PauseBody(pause: PausePoint)
    | ResumeMark
    | ResumeOpen
    | ResumeFailed
    | StopEntry(closing: bool)
    | StopBody(stop: StopPoint)

  datatype ChoicePoint =
    | LoadState_ | LoadGate | LoadDone | Paths(restarting: bool) | Discard | DiscardTake | Reset

  datatype PreparePoint = Create | Abandon | Header | MarkRecording | OpenGate

  datatype FailPoint = FailError(err: ErrorPoint) | FailFinish | FailAnnounce

  datatype PausePoint = MarkPausing | AwaitPaused | PauseReturn

  datatype StopPoint = ScanState | MarkStopping(seenState: RecordingState) | AwaitDone | Join | StopReturn

  /** A data file renamed to its final name, and what had been accepted at that moment. */
  datatype Promotion = Promotion(rows: seq<Row>, accepted: seq<Row>)

  /** A metadata file published as "complete". */
  datatype Report = Report(acceptedCount: nat, writtenCount: nat, capture: Capture, accepted: seq<Row>)

  /** A partial file closed on the error path. */
  datatype Closure = Closure(rows: seq<Row>, accepted: seq<Row>, ioFailed: bool)

  datatype Archive = Archive(promotions: seq<Promotion>, reports: seq<Report>, closures: seq<Closure>)

  /** The atomic counters and the writer-owned summary. */
  datatype Tally = Tally(accepted: nat, written: nat, capture: Capture)

  /** History, never read by a step: the rows whose submit() returned Accepted since start,
      the rows in the data file, what the environment did to them, and what was published. */
  datatype Log = Log(accepted: seq<Row>, rows: seq<Row>, lost: bool, ioFailed: bool, archive: Archive)

  datatype Recorder = Recorder(
    gate: Admission,
    queue: seq<Row>,
    state: RecordingState,
    tally: Tally,
    writerDone: bool,
    fileOpen: bool,
    producer: Producer,
    writer: Writer,
    control: Control,
    log: Log)
  {
    predicate Joinable() { !writer.NoWriter? }
  }

  const EMPTY := Tally(0, 0, Capture(None, None, None, 0, {}, {}, {}))

  const INITIAL :=
    Recorder(SHUT, [], Idle, EMPTY, true, false, Outside, NoWriter, Ready,
             Log([], [], false, false, Archive([], [], [])))

  datatype Operation = Start | Pause | Resume | Stop

  datatype Step =
    | Produce(row: Row, spurious: bool)
    | Write(ok: bool, due: bool)
    | Command(operation: Operation)
    | Act(ok: bool, thrown: bool)

  /** One step of one thread. A thread whose wait condition does not hold stays put. */
  function Next(s: Recorder, step: Step): Recorder {
    match step
    case Produce(row, spurious) => NextProducer(s, row, spurious)
    case Write(ok, due) => NextWriter(s, ok, due)
    case Command(operation) => if s.control == Ready then Begin(s, operation) else s
    case Act(ok, thrown) => NextControl(s, ok, thrown)
  }

  // submit()

  function NextProducer(s: Recorder, row: Row, spurious: bool): Recorder {
    match s.producer
    case Outside => s.(producer := Entering(row, s.gate))
    case Entering(x, seen) => Enter(s, x, seen, spurious)
    case Rejected => s.(producer := Outside)
    case Submitting(x, at) => Submit(s, x, at)
    case Overflowing(point) => Overflow(s, point, spurious)
  }

  function Enter(s: Recorder, row: Row, seen: Admission, spurious: bool): Recorder {
    if !seen.open || seen.live == COUNT_MASK then s.(producer := Rejected)
    else if s.gate != seen || spurious then s.(producer := Entering(row, s.gate))
    else s.(gate := s.gate.Entered(), producer := Submitting(row, Admitted))
  }

  function Submit(s: Recorder, row: Row, at: SubmitPoint): Recorder {
    match at
    case Admitted =>
      if |s.queue| >= CAPACITY then s.(producer := Overflowing(FirstClose))
      else s.(producer := Submitting(row, Publishing))
    case Publishing => s.(queue := s.queue + [row], producer := Submitting(row, Counting))
    case Counting =>
      s.(tally := s.tally.(accepted := s.tally.accepted + 1), producer := Submitting(row, Leaving))
    case Leaving =>
      s.(gate := s.gate.Left(), log := s.log.(accepted := s.log.accepted + [row]), producer := Outside)
  }

  function Overflow(s: Recorder, point: OverflowPoint, spurious: bool): Recorder {
    match point
    case FirstClose => s.(gate := s.gate.Closed(), producer := Overflowing(SecondClose))
    case SecondClose => s.(gate := s.gate.Closed(), producer := Overflowing(SetFlag))
    case SetFlag => s.(producer := Overflowing(LoadState))
    case LoadState => s.(producer := Overflowing(CasState(s.state)))
    case CasState(seen) =>
      if seen == Error || seen == Idle then s.(producer := Overflowing(LeaveFull))
      else if s.state != seen || spurious then s.(producer := Overflowing(CasState(s.state)))
      else s.(state := Error, producer := Overflowing(LeaveFull))
    case LeaveFull => s.(gate := s.gate.Left(), producer := Outside)
  }

  // writer_loop()

  function WriterFails(s: Recorder): Recorder {
    s.(log := s.log.(ioFailed := true), writer := Erring(ErrorClose, CloseFlush))
  }

  function NextWriter(s: Recorder, ok: bool, due: bool): Recorder {
    match s.writer
    case NoWriter => s
    case Draining(batch, point) => Drain(s, batch, point, ok)
    case Tallying(count) => s.(tally := s.tally.(written := s.tally.written + count), writer := Observing)
    case Observing => Observe(s)
    case Checking(seen, gateDrained) => CheckDrained(s, seen, gateDrained)
    case PauseDrained(flushed) => CompletePause(s, flushed, ok)
    case Finalizing(point) => Finalize(s, point, ok)
    case Resting(point) => Rest(s, point, ok, due)
    case Erring(point, next) => WriterError(s, point, next, ok)
    case Closing(point) => CloseFile(s, point, ok)
    case Announcing => s.(writerDone := true, writer := Exited)
    case Exited => s
  }

  /** write_available_batch() */
  function Drain(s: Recorder, batch: seq<Row>, point: DrainPoint, ok: bool): Recorder {
    match point
    case Check =>
      if |batch| < BATCH_SIZE && s.queue != [] then s.(writer := Draining(batch, Take))
      else if batch == [] then s.(writer := Observing)
      else s.(writer := Draining(batch, Emit), tally := s.tally.(capture := NoteAll(s.tally.capture, batch)))
    case Take =>
      if s.queue == [] then s
      else s.(queue := s.queue[1..], writer := Draining(batch + [s.queue[0]], Check))
    case Emit =>
      if ok then s.(log := s.log.(rows := s.log.rows + batch), writer := Tallying(|batch|))
      else s.(writer := Draining(batch, Tear(0)))
    case Tear(torn) =>
      if ok && batch != [] then
        s.(log := s.log.(rows := s.log.rows + [batch[0]]), writer := Draining(batch[1..], Tear(torn + 1)))
      else WriterFails(s.(log := s.log.(lost := true)))
  }

  function Observe(s: Recorder): Recorder {
    if s.state == Pausing || s.state == Stopping || s.state == Error
    then s.(writer := Checking(s.state, false))
    else s.(writer := Resting(TimedFlush))
  }

  /** drain_complete(): the gate first, the queue second. */
  function CheckDrained(s: Recorder, seen: RecordingState, gateDrained: bool): Recorder {
    if !gateDrained then
      s.(writer := if s.gate.Drained() then Checking(seen, true) else Resting(TimedFlush))
    else
      s.(writer :=
        if s.queue != [] then Resting(TimedFlush)
        else if seen == Pausing then PauseDrained(false)
        else if seen == Stopping then Finalizing(StopFlush)
        else Closing(CloseFlush))
  }

  function CompletePause(s: Recorder, flushed: bool, ok: bool): Recorder {
    if !flushed then
      if ok then s.(writer := PauseDrained(true)) else WriterFails(s)
    else if s.state == Pausing then s.(state := Paused, writer := Draining([], Check))
    else s.(writer := Closing(CloseFlush))
  }

  function Promoted(log: Log): Archive {
    log.archive.(promotions := log.archive.promotions + [Promotion(log.rows, log.accepted)])
  }

  function Reported(log: Log, report: Report): Archive {
    log.archive.(reports := log.archive.reports + [report])
  }

  function Dropped(log: Log): Archive {
    log.archive.(closures := log.archive.closures + [Closure(log.rows, log.accepted, log.ioFailed)])
  }

  /** flush_file() && close_file() && promote_file(), then Stopping to Idle. */
  function Finalize(s: Recorder, point: FinalPoint, ok: bool): Recorder {
    match point
    case StopFlush => if ok then s.(writer := Finalizing(StopClose)) else WriterFails(s)
    case StopClose => if ok then s.(fileOpen := false, writer := Finalizing(Promote)) else WriterFails(s)
    case Promote =>
      if ok then
        s.(log := s.log.(archive := Promoted(s.log)), writer := Finalizing(CreateMetadata))
      else WriterFails(s)
    case CreateMetadata => if ok then s.(writer := Finalizing(LoadAccepted)) else WriterFails(s)
    case LoadAccepted => s.(writer := Finalizing(LoadWritten(s.tally.accepted)))
    case LoadWritten(a) => s.(writer := Finalizing(FinishMetadata(a, s.tally.written)))
    case FinishMetadata(a, w) =>
      if ok then
        s.(log := s.log.(archive := Reported(s.log, Report(a, w, s.tally.capture, s.log.accepted))),
           writer := Finalizing(CommitIdle))
      else WriterFails(s)
    case CommitIdle =>
      if s.state == Stopping then s.(state := Idle, writer := Announcing)
      else s.(writer := Announcing)
  }

  function Rest(s: Recorder, point: RestPoint, ok: bool, due: bool): Recorder {
    match point
    case TimedFlush => if !due || ok then s.(writer := Resting(Wait)) else WriterFails(s)
    case Wait => s.(writer := if s.state == Paused then Resting(WaitPaused) else Draining([], Check))
    case WaitPaused => if s.state == Paused then s else s.(writer := Draining([], Check))
  }

  function WriterError(s: Recorder, point: ErrorPoint, next: ClosePoint, ok: bool): Recorder {
    match point
    case ErrorClose => s.(gate := s.gate.Closed(), writer := Erring(ErrorLoad, next))
    case ErrorLoad => s.(writer := Erring(ErrorCas(s.state), next))
    case ErrorCas(seen) =>
      if seen == Error || seen == Idle then s.(writer := Closing(next))
      else if s.state != seen || !ok then s.(writer := Erring(ErrorCas(s.state), next))
      else s.(state := Error, writer := Closing(next))
  }

  /** finish_error_file() */
  function CloseFile(s: Recorder, point: ClosePoint, ok: bool): Recorder {
    match point
    case CloseFlush =>
      if !s.fileOpen then s.(writer := Announcing)
      else if ok then s.(writer := Closing(CloseClose))
      else s.(log := s.log.(ioFailed := true), writer := Erring(ErrorClose, CloseClose))
    case CloseClose =>
      if ok then s.(writer := Closing(CloseDrop))
      else s.(log := s.log.(ioFailed := true), writer := Erring(ErrorClose, CloseDrop))
    case CloseDrop => DropFile(s).(writer := Announcing)
  }

  function DropFile(s: Recorder): Recorder {
    s.(fileOpen := false, log := s.log.(archive := Dropped(s.log)))
  }

  // start(), pause(), resume() and stop()

  function Begin(s: Recorder, operation: Operation): Recorder {
    s.(control :=
      match operation
      case Start => Choosing(LoadState_)
      case Pause => PauseEntry(false)
      case Resume => ResumeMark
      case Stop => StopEntry(false))
  }

  function ControlFails(s: Recorder): Recorder {
    s.(log := s.log.(ioFailed := true), control := Failing(FailError(ErrorClose)))
  }

  function NextControl(s: Recorder, ok: bool, thrown: bool): Recorder {
    match s.control
    case Ready => s
    case Choosing(point) => Choose(s, point, ok)
    case Preparing(point) => Prepare(s, point, ok, thrown)
    case Spawning(failed) => Spawn(s, failed, ok)
    case Failing(point) => Fail(s, point, ok)
    case PauseEntry(closing) => EnterPause(s, closing)
    case PauseBody(point) => PauseStep(s, point)
    case ResumeMark => MarkResumed(s)
    case ResumeOpen => OpenResumed(s)
    case ResumeFailed => s.(gate := s.gate.Closed(), state := Error, control := Ready)
    case StopEntry(closing) => EnterStop(s, closing)
    case StopBody(point) => StopStep(s, point, ok)
  }

  /** start() up to the decision to record, including the discard of a failed run's queue. */
  function Choose(s: Recorder, point: ChoicePoint, ok: bool): Recorder {
    match point
    case LoadState_ =>
      if s.state == Idle && !s.Joinable() then s.(control := Choosing(Paths(false)))
      else if s.state == Error && !s.Joinable() && !s.fileOpen then s.(control := Choosing(LoadGate))
      else s.(control := Ready)
    case LoadGate => s.(control := if s.gate.Drained() then Choosing(LoadDone) else Ready)
    case LoadDone => s.(control := if s.writerDone then Choosing(Paths(true)) else Ready)
    case Paths(restarting) =>
      s.(control := if !ok then Ready else Choosing(if restarting then Discard else Reset))
    case Discard => s.(control := Choosing(if s.queue == [] then Reset else DiscardTake))
    case DiscardTake =>
      if s.queue == [] then s
      else s.(queue := s.queue[1..], log := s.log.(lost := true), control := Choosing(Discard))
    case Reset =>
      // The counter and flag stores of start() share a step with the store of Starting: no
      // submission is live and no writer exists here, which is part of the invariant.
      s.(state := Starting, tally := EMPTY, writerDone := false,
         log := Log([], [], false, false, s.log.archive), control := Preparing(Create))
  }

  function Prepare(s: Recorder, point: PreparePoint, ok: bool, thrown: bool): Recorder {
    match point
    case Create =>
      if ok then s.(fileOpen := true, control := Preparing(Header))
      else if thrown then ControlFails(s)
      else s.(control := Preparing(Abandon))
    case Abandon => s.(state := Idle, control := Failing(FailAnnounce))
    case Header => if ok then s.(control := Preparing(MarkRecording)) else ControlFails(s)
    case MarkRecording => s.(state := Recording, control := Preparing(OpenGate))
    case OpenGate =>
      if s.gate == SHUT then s.(gate := OPENED, control := Spawning(false)) else ControlFails(s)
  }

  function Spawn(s: Recorder, failed: bool, ok: bool): Recorder {
    if failed then s.(gate := s.gate.Closed(), control := Failing(FailError(ErrorClose)))
    else if ok then s.(writer := Draining([], Check), control := Ready)
    else s.(log := s.log.(ioFailed := true), control := Spawning(true))
  }

  function Fail(s: Recorder, point: FailPoint, ok: bool): Recorder {
    match point
    case FailError(ErrorClose) =>
      s.(gate := s.gate.Closed(), control := Failing(FailError(ErrorLoad)))
    case FailError(ErrorLoad) => s.(control := Failing(FailError(ErrorCas(s.state))))
    case FailError(ErrorCas(seen)) =>
      if seen == Error || seen == Idle then s.(control := Failing(FailFinish))
      else if s.state != seen || !ok then s.(control := Failing(FailError(ErrorCas(s.state))))
      else s.(state := Error, control := Failing(FailFinish))
    case FailFinish => (if s.fileOpen then DropFile(s) else s).(control := Failing(FailAnnounce))
    case FailAnnounce => s.(writerDone := true, control := Ready)
  }

  function EnterPause(s: Recorder, closing: bool): Recorder {
    if closing then s.(gate := s.gate.Closed(), control := PauseBody(MarkPausing))
    else s.(control := if s.state == Recording then PauseEntry(true) else Ready)
  }

  function EnterStop(s: Recorder, closing: bool): Recorder {
    if closing then s.(gate := s.gate.Closed(), control := StopBody(ScanState))
    else s.(control := if s.state == Idle && !s.Joinable() then Ready else StopEntry(true))
  }

  function MarkResumed(s: Recorder): Recorder {
    if s.state == Paused then s.(state := Recording, control := ResumeOpen)
    else s.(control := Ready)
  }

  function OpenResumed(s: Recorder): Recorder {
    if s.gate == SHUT then s.(gate := OPENED, control := Ready)
    else s.(control := ResumeFailed)
  }

  function PauseStep(s: Recorder, point: PausePoint): Recorder {
    match point
    case MarkPausing =>
      if s.state == Recording then s.(state := Pausing, control := PauseBody(AwaitPaused))
      else s.(control := if s.state == Error then PauseBody(AwaitPaused) else Ready)
    case AwaitPaused =>
      if s.state == Paused || s.writerDone then s.(control := PauseBody(PauseReturn)) else s
    case PauseReturn => s.(control := Ready)
  }

  function StopStep(s: Recorder, point: StopPoint, ok: bool): Recorder {
    match point
    case ScanState => s.(control := StopBody(MarkStopping(s.state)))
    case MarkStopping(seen) =>
      if seen == Error || seen == Stopping then s.(control := StopBody(AwaitDone))
      else if s.state != seen || !ok then s.(control := StopBody(MarkStopping(s.state)))
      else s.(state := Stopping, control := StopBody(AwaitDone))
    case AwaitDone => if s.writerDone then s.(control := StopBody(Join)) else s
    case Join =>
      if !s.Joinable() then s.(control := StopBody(StopReturn))
      else if s.writer.Exited? then
        s.(writer := NoWriter, control := StopBody(StopReturn))
      else s
    case StopReturn => s.(control := Ready)
  }

  function Run(s: Recorder, steps: seq<Step>): Recorder
    decreases |steps|
  {
    if steps == [] then s else Run(Next(s, steps[0]), steps[1..])
  }
}
