/** What the recorder protocol guarantees in every run. */
module RecorderTheorems {
  import opened CaptureMetadata
  import opened GateWord
  import opened RecorderProtocol
  import opened RecorderInvariant

  function After(steps: seq<Step>): Recorder { Run(INITIAL, steps) }

  /** Rows the writer has formatted, and so noted in the summary, but not yet written. */
  function Formatted(w: Writer): seq<Row> {
    if w.Draining? && (w.drain.Emit? || w.drain.Tear?) then w.batch else []
  }

  predicate SummaryOf(lost: bool, capture: Capture, rows: seq<Row>) {
    lost || capture == Summary(rows)
  }

  predicate Summarized(s: Recorder) {
    SummaryOf(s.log.lost, s.tally.capture, s.log.rows + Formatted(s.writer))
  }

  /** What has been published so far was exact when it was published. */
  predicate ArchiveExact(a: Archive) {
    && (forall p <- a.promotions :: p.rows == p.accepted)
    && (forall r <- a.reports ::
          r.acceptedCount == r.writtenCount == |r.accepted| && r.capture == Summary(r.accepted))
    && (forall c <- a.closures :: !c.ioFailed ==> c.rows == c.accepted)
  }

  /** With nothing in flight, held or queued, the file is the accepted rows. */
  lemma QuietIsExact(s: Recorder)
    requires Inv(s) && !s.log.lost && Quiet(s) && Held(s.writer) == []
    ensures s.log.rows == s.log.accepted
  {
    assert s.log.accepted + [] == s.log.accepted;
    assert s.log.rows + [] + [] == s.log.rows;
  }

  lemma NotesBatch(lost: bool, capture: Capture, rows: seq<Row>, batch: seq<Row>)
    requires SummaryOf(lost, capture, rows + [])
    ensures SummaryOf(lost, capture, rows) && SummaryOf(lost, NoteAll(capture, batch), rows + batch)
  {
    assert rows + [] == rows;
    BatchesDoNotMatter(rows, batch);
  }

  /** The check takes another row, finds the batch empty, or notes the batch and formats it. */
  lemma CheckMovesOn(s: Recorder, batch: seq<Row>)
    ensures var n := Drain(s, batch, Check, true);
            n.log == s.log &&
            if n.writer == Draining(batch, Emit) then n.tally.capture == NoteAll(s.tally.capture, batch)
            else n.tally == s.tally && Formatted(n.writer) == []
  {
  }

  lemma CheckNotesBatch(s: Recorder, batch: seq<Row>)
    requires Summarized(s) && s.writer == Draining(batch, Check)
    ensures Summarized(Drain(s, batch, Check, true))
  {
    assert SummaryOf(s.log.lost, s.tally.capture, s.log.rows + []);
    NotesBatch(s.log.lost, s.tally.capture, s.log.rows, batch);
    CheckMovesOn(s, batch);
  }

  lemma TornRows(rows: seq<Row>, batch: seq<Row>)
    requires batch != []
    ensures rows + [batch[0]] + batch[1..] == rows + batch
  {
    assert batch == [batch[0]] + batch[1..];
  }

  lemma TearsNoted(s: Recorder, batch: seq<Row>, torn: nat, ok: bool)
    requires Summarized(s) && s.writer == Draining(batch, Tear(torn))
    ensures Summarized(Drain(s, batch, Tear(torn), ok))
  {
    if ok && batch != [] {
      TornRows(s.log.rows, batch);
      var n := Drain(s, batch, Tear(torn), ok);
      assert n.log.rows + Formatted(n.writer) == s.log.rows + Formatted(s.writer);
    }
  }

  lemma DrainNotesBatch(s: Recorder, batch: seq<Row>, point: DrainPoint, ok: bool)
    requires Summarized(s) && s.writer == Draining(batch, point)
    ensures Summarized(Drain(s, batch, point, ok))
  {
    match point
    case Check => CheckNotesBatch(s, batch);
    case Take =>
    case Emit => assert s.log.rows + batch + [] == s.log.rows + batch;
    case Tear(torn) => TearsNoted(s, batch, torn, ok);
  }

  // Frames: what a step of each thread leaves alone.

  lemma ProducerFrame(s: Recorder, row: Row, spurious: bool)
    ensures var s' := NextProducer(s, row, spurious);
            && s'.tally.capture == s.tally.capture && s'.writer == s.writer
            && s'.log.rows == s.log.rows && s'.log.lost == s.log.lost
            && s'.log.archive == s.log.archive
  {
  }

  /** The writer may close the gate and pop; only its drain touches summary and rows, and
      only finalization and the last close step touch the archive. */
  predicate WriterFrame(s: Recorder, s': Recorder) {
    && s'.producer == s.producer
    && (s'.gate == s.gate || s'.gate == s.gate.Closed())
    && (s'.queue == s.queue || (s.queue != [] && s'.queue == s.queue[1..]))
    && (!s.writer.Draining? ==>
          && s'.tally.capture == s.tally.capture && Formatted(s'.writer) == []
          && s'.log.rows == s.log.rows && s'.log.lost == s.log.lost)
    && (!s.writer.Finalizing? && s.writer != Closing(CloseDrop) ==> s'.log.archive == s.log.archive)
  }

  /** A control operation may close or open the gate and discard; only the reset touches
      summary and rows, and only the end of a failed start touches the archive. */
  predicate ControlFrame(s: Recorder, s': Recorder) {
    && s'.producer == s.producer
    && (s'.gate == s.gate || s'.gate == s.gate.Closed() || s'.gate.open)
    && (s'.queue == s.queue || (s.queue != [] && s'.queue == s.queue[1..]))
    && (s.control != Choosing(Reset) ==>
          && s'.tally.capture == s.tally.capture && Formatted(s'.writer) == Formatted(s.writer)
          && s'.log.rows == s.log.rows && (s.log.lost ==> s'.log.lost))
    && (s.control != Failing(FailFinish) ==> s'.log.archive == s.log.archive)
  }

  lemma DrainFrame(s: Recorder, batch: seq<Row>, point: DrainPoint, ok: bool)
    requires s.writer == Draining(batch, point)
    ensures WriterFrame(s, Drain(s, batch, point, ok))
  {
  }

  lemma CheckFrame(s: Recorder, seen: RecordingState, gateDrained: bool)
    requires s.writer == Checking(seen, gateDrained)
    ensures WriterFrame(s, CheckDrained(s, seen, gateDrained))
  {
  }

  lemma CompletePauseFrame(s: Recorder, flushed: bool, ok: bool)
    requires s.writer == PauseDrained(flushed)
    ensures WriterFrame(s, CompletePause(s, flushed, ok))
  {
  }

  lemma RestFrame(s: Recorder, point: RestPoint, ok: bool, due: bool)
    requires s.writer == Resting(point)
    ensures WriterFrame(s, Rest(s, point, ok, due))
  {
  }

  lemma FinalizeFrame(s: Recorder, ok: bool, due: bool)
    requires s.writer.Finalizing?
    ensures WriterFrame(s, NextWriter(s, ok, due))
  {
  }

  lemma ErrorFrame(s: Recorder, point: ErrorPoint, next: ClosePoint, ok: bool)
    requires s.writer == Erring(point, next)
    ensures WriterFrame(s, WriterError(s, point, next, ok))
  {
  }

  lemma CloseFrame(s: Recorder, point: ClosePoint, ok: bool)
    requires s.writer == Closing(point)
    ensures WriterFrame(s, CloseFile(s, point, ok))
  {
  }

  lemma WriterLeaves(s: Recorder, ok: bool, due: bool)
    ensures WriterFrame(s, NextWriter(s, ok, due))
  {
    match s.writer
    case Draining(batch, point) => DrainFrame(s, batch, point, ok);
    case Checking(seen, gateDrained) => CheckFrame(s, seen, gateDrained);
    case PauseDrained(flushed) => CompletePauseFrame(s, flushed, ok);
    case Resting(point) => RestFrame(s, point, ok, due);
    case Finalizing(_) => FinalizeFrame(s, ok, due);
    case Erring(point, next) => ErrorFrame(s, point, next, ok);
    case Closing(point) => CloseFrame(s, point, ok);
    case _ =>
  }

  lemma ChooseFrame(s: Recorder, point: ChoicePoint, ok: bool)
    requires s.control == Choosing(point)
    ensures ControlFrame(s, Choose(s, point, ok))
  {
  }

  lemma PrepareFrame(s: Recorder, point: PreparePoint, ok: bool, thrown: bool)
    requires s.control == Preparing(point)
    ensures ControlFrame(s, Prepare(s, point, ok, thrown))
  {
  }

  lemma SpawnFrame(s: Recorder, failed: bool, ok: bool)
    requires s.writer.NoWriter? && s.control == Spawning(failed)
    ensures ControlFrame(s, Spawn(s, failed, ok))
  {
  }

  lemma FailFrame(s: Recorder, point: FailPoint, ok: bool)
    requires s.control == Failing(point)
    ensures ControlFrame(s, Fail(s, point, ok))
  {
  }

  lemma PauseFrame(s: Recorder, point: PausePoint)
    requires s.control == PauseBody(point)
    ensures ControlFrame(s, PauseStep(s, point))
  {
  }

  lemma StopFrame(s: Recorder, point: StopPoint, ok: bool)
    requires s.control == StopBody(point)
    ensures ControlFrame(s, StopStep(s, point, ok))
  {
  }

  lemma EntryFrame(s: Recorder, ok: bool, thrown: bool)
    requires s.control.PauseEntry? || s.control.StopEntry? || s.control.ResumeMark? || s.control.ResumeOpen?
    ensures ControlFrame(s, NextControl(s, ok, thrown))
  {
  }

  lemma ControlLeaves(s: Recorder, ok: bool, thrown: bool)
    requires Inv(s)
    ensures ControlFrame(s, NextControl(s, ok, thrown))
  {
    match s.control
    case Choosing(point) => ChooseFrame(s, point, ok);
    case Preparing(point) => PrepareFrame(s, point, ok, thrown);
    case Spawning(failed) => SpawnFrame(s, failed, ok);
    case Failing(point) => FailFrame(s, point, ok);
    case PauseBody(point) => PauseFrame(s, point);
    case StopBody(point) => StopFrame(s, point, ok);
    case Ready =>
    case ResumeFailed => assert false;
    case _ => EntryFrame(s, ok, thrown);
  }

  lemma SummaryStep(s: Recorder, step: Step)
    requires Inv(s) && Summarized(s)
    ensures Summarized(Next(s, step))
  {
    match step
    case Produce(row, spurious) => ProducerFrame(s, row, spurious);
    case Write(ok, due) =>
      if s.writer.Draining? {
        DrainNotesBatch(s, s.writer.batch, s.writer.drain, ok);
      } else {
        WriterLeaves(s, ok, due);
      }
    case Command(operation) =>
    case Act(ok, thrown) =>
      ControlLeaves(s, ok, thrown);
  }

  lemma FinalizeArchives(s: Recorder, point: FinalPoint, ok: bool)
    requires Inv(s) && Summarized(s) && ArchiveExact(s.log.archive) && s.writer == Finalizing(point)
    ensures ArchiveExact(Finalize(s, point, ok).log.archive)
  {
    if point.Promote? || point.FinishMetadata? {
      QuietIsExact(s);
      assert s.log.rows + [] == s.log.rows;
    }
  }

  lemma DropArchives(s: Recorder)
    requires Inv(s) && ArchiveExact(s.log.archive)
    requires s.writer == Closing(CloseDrop) || s.control == Failing(FailFinish)
    ensures ArchiveExact(DropFile(s).log.archive)
  {
    if !s.log.ioFailed {
      QuietIsExact(s);
    }
  }

  lemma WriterArchives(s: Recorder, ok: bool, due: bool)
    requires Inv(s) && Summarized(s) && ArchiveExact(s.log.archive)
    ensures ArchiveExact(NextWriter(s, ok, due).log.archive)
  {
    if s.writer.Finalizing? {
      FinalizeArchives(s, s.writer.final, ok);
    } else if s.writer == Closing(CloseDrop) {
      DropArchives(s);
    } else {
      WriterLeaves(s, ok, due);
    }
  }

  lemma ControlArchives(s: Recorder, ok: bool, thrown: bool)
    requires Inv(s) && ArchiveExact(s.log.archive)
    ensures ArchiveExact(NextControl(s, ok, thrown).log.archive)
  {
    if s.control == Failing(FailFinish) {
      DropArchives(s);
    } else {
      ControlLeaves(s, ok, thrown);
    }
  }

  lemma ArchiveStep(s: Recorder, step: Step)
    requires Inv(s) && Summarized(s) && ArchiveExact(s.log.archive)
    ensures ArchiveExact(Next(s, step).log.archive)
  {
    match step
    case Produce(row, spurious) => ProducerFrame(s, row, spurious);
    case Write(ok, due) => WriterArchives(s, ok, due);
    case Command(operation) =>
    case Act(ok, thrown) => ControlArchives(s, ok, thrown);
  }

  predicate Sound(s: Recorder) {
    Inv(s) && Summarized(s) && ArchiveExact(s.log.archive)
  }

  lemma {:induction false} RunsAreSound(s: Recorder, steps: seq<Step>)
    requires Sound(s)
    ensures Sound(Run(s, steps))
    decreases |steps|
  {
    if steps != [] {
      StepKeepsInv(s, steps[0]);
      SummaryStep(s, steps[0]);
      ArchiveStep(s, steps[0]);
      RunsAreSound(Next(s, steps[0]), steps[1..]);
    }
  }

  lemma EveryRunIsSound(steps: seq<Step>)
    ensures Sound(After(steps))
  {
    var s := INITIAL;
    InitialInv(s);
    RunsAreSound(s, steps);
  }

  /** No loss, no duplication, no reordering: whenever a recording is Paused, the rows in
      the file are the rows accepted since start, in order, and every counter says so. */
  lemma PausedIsExact(steps: seq<Step>)
    requires After(steps).state == Paused
    ensures var s := After(steps);
            && s.log.rows == s.log.accepted
            && s.tally.accepted == s.tally.written == |s.log.rows|
            && s.tally.capture == Summary(s.log.accepted)
            && s.queue == [] && !Holds(s.producer)
  {
    EveryRunIsSound(steps);
    var s := After(steps);
    assert s.log.rows + [] == s.log.rows;
  }

  /** Every data file promoted in a run held exactly the rows accepted since its start;
      every "complete" summary counted and described exactly those rows; and every partial
      closed without an I/O failure, as after an overflow, held exactly those rows. */
  lemma PublishedIsExact(steps: seq<Step>)
    ensures ArchiveExact(After(steps).log.archive)
  {
    EveryRunIsSound(steps);
  }

  /** Whatever failed, the file is never out of order and never holds a row that was not
      accepted: it is a prefix of the accepted rows. */
  lemma FileIsAcceptedPrefix(steps: seq<Step>)
    ensures var s := After(steps); s.log.rows <= s.log.accepted + InFlight(s.producer)
  {
    EveryRunIsSound(steps);
  }

  /** While a drain is requested or complete the gate is closed, and the gate's count is
      the one submission that is inside it, if any. */
  lemma GateShutWhileDraining(steps: seq<Step>)
    ensures var s := After(steps);
            && (s.state in {Pausing, Paused, Stopping} ==> !s.gate.open)
            && (s.state == Error && !s.log.ioFailed ==> !s.gate.open)
            && s.gate.live == (if Holds(s.producer) then 1 else 0)
  {
    EveryRunIsSound(steps);
  }

  /** The gate is observed drained first and the queue empty second: together they mean
      that every accepted row has been popped, whatever ran between the observations. */
  lemma DrainCompleteMeansDrained(steps: seq<Step>, seen: RecordingState)
    requires After(steps).writer == Checking(seen, true) && After(steps).queue == []
    ensures var s := After(steps); Quiet(s) && s.log.rows == s.log.accepted
  {
    EveryRunIsSound(steps);
    QuietIsExact(After(steps));
  }

  lemma QuietStep(s: Recorder, step: Step)
    requires Inv(s) && Quiet(s) && !Next(s, step).gate.open
    ensures Quiet(Next(s, step))
  {
    match step
    case Produce(row, spurious) =>
    case Write(ok, due) => WriterLeaves(s, ok, due);
    case Command(operation) =>
    case Act(ok, thrown) => ControlLeaves(s, ok, thrown);
  }

  /** Once drained, nothing is pushed until the gate has been opened again. */
  lemma {:induction false} QuietUntilOpened(s: Recorder, steps: seq<Step>)
    requires Inv(s) && Quiet(s)
    requires forall k :: 0 <= k <= |steps| ==> !Run(s, steps[..k]).gate.open
    ensures Quiet(Run(s, steps))
    decreases |steps|
  {
    if steps != [] {
      ClosedTail(s, steps);
      StepKeepsInv(s, steps[0]);
      QuietStep(s, steps[0]);
      QuietUntilOpened(Next(s, steps[0]), steps[1..]);
    }
  }

  /** Opening the gate at start and at resume always succeeds, so the failure arms behind
      those two compare-and-swaps are dead, and pause() never loses its own transition
      to anything but Error. */
  lemma OpeningNeverFails(steps: seq<Step>)
    ensures var s := After(steps);
            && (s.control == Preparing(OpenGate) || s.control == ResumeOpen ==> s.gate == SHUT)
            && s.control != ResumeFailed
            && (s.control == PauseBody(MarkPausing) ==> s.state == Recording || s.state == Error)
  {
    EveryRunIsSound(steps);
  }

  // The counters.

  /** Once a row is lost the written counter stays behind what has been pushed. */
  predicate StaysShort(lost: bool, written: nat, accepted: seq<Row>, p: Producer) {
    lost ==> written < |accepted| + |InFlight(p)|
  }

  predicate LostStaysShort(s: Recorder) {
    StaysShort(s.log.lost, s.tally.written, s.log.accepted, s.producer)
  }

  lemma ProducerStaysShort(s: Recorder, row: Row, spurious: bool)
    requires LostStaysShort(s)
    ensures LostStaysShort(NextProducer(s, row, spurious))
  {
    match s.producer
    case Submitting(x, at) => SubmitStaysShort(s, x, at);
    case Overflowing(point) => OverflowStaysShort(s, point, spurious);
    case _ =>
  }

  lemma SubmitStaysShort(s: Recorder, x: Row, at: SubmitPoint)
    requires LostStaysShort(s) && s.producer == Submitting(x, at)
    ensures LostStaysShort(Submit(s, x, at))
  {
  }

  lemma OverflowStaysShort(s: Recorder, point: OverflowPoint, spurious: bool)
    requires LostStaysShort(s) && s.producer == Overflowing(point)
    ensures LostStaysShort(Overflow(s, point, spurious))
  {
  }

  /** The write that loses rows has not counted its batch. */
  lemma TearStaysShort(s: Recorder, batch: seq<Row>, torn: nat, ok: bool)
    requires Inv(s) && LostStaysShort(s) && s.writer == Draining(batch, Tear(torn))
    ensures LostStaysShort(Drain(s, batch, Tear(torn), ok))
  {
    assert |s.log.rows + batch + s.queue| == |s.log.rows| + |batch| + |s.queue|;
  }

  lemma WriterStaysShort(s: Recorder, ok: bool, due: bool)
    requires Inv(s) && LostStaysShort(s)
    ensures LostStaysShort(NextWriter(s, ok, due))
  {
    if s.writer.Draining? {
      if s.writer.drain.Tear? {
        TearStaysShort(s, s.writer.batch, s.writer.drain.torn, ok);
      }
    } else {
      WriterLeaves(s, ok, due);
      if !s.writer.Tallying? {
        WriterCounts(s, ok, due);
      }
    }
  }

  /** Nothing is accepted or counted as written. */
  predicate SameCounts(s: Recorder, n: Recorder) {
    n.log.accepted == s.log.accepted && n.producer == s.producer && n.tally.written == s.tally.written
  }

  lemma FinalizeCounts(s: Recorder, point: FinalPoint, ok: bool)
    ensures SameCounts(s, Finalize(s, point, ok))
  {
  }

  lemma EndCounts(s: Recorder, ok: bool)
    ensures s.writer.Erring? ==> SameCounts(s, WriterError(s, s.writer.err, s.writer.next, ok))
    ensures s.writer.Closing? ==> SameCounts(s, CloseFile(s, s.writer.close, ok))
  {
  }

  lemma LoopCounts(s: Recorder, ok: bool, due: bool)
    ensures SameCounts(s, Observe(s))
    ensures s.writer.Checking? ==> SameCounts(s, CheckDrained(s, s.writer.seen, s.writer.gateDrained))
    ensures s.writer.PauseDrained? ==> SameCounts(s, CompletePause(s, s.writer.flushed, ok))
    ensures s.writer.Resting? ==> SameCounts(s, Rest(s, s.writer.rest, ok, due))
  {
  }

  lemma WriterCounts(s: Recorder, ok: bool, due: bool)
    requires !s.writer.Draining? && !s.writer.Tallying?
    ensures SameCounts(s, NextWriter(s, ok, due))
  {
    match s.writer
    case Finalizing(point) => FinalizeCounts(s, point, ok);
    case Erring(_, _) => EndCounts(s, ok);
    case Closing(_) => EndCounts(s, ok);
    case _ => LoopCounts(s, ok, due);
  }

  /** Restarting discards queued rows only after a failure, and then forgets the counters. */
  lemma ChooseStaysShort(s: Recorder, point: ChoicePoint, ok: bool)
    requires Inv(s) && LostStaysShort(s) && s.control == Choosing(point)
    ensures LostStaysShort(Choose(s, point, ok))
  {
    assert |s.log.rows + [] + s.queue| == |s.log.rows| + |s.queue|;
  }

  lemma ControlStaysShort(s: Recorder, ok: bool, thrown: bool)
    requires Inv(s) && LostStaysShort(s)
    ensures LostStaysShort(NextControl(s, ok, thrown))
  {
    if s.control.Choosing? {
      ChooseStaysShort(s, s.control.choice, ok);
    } else {
      ControlCounts(s, ok, thrown);
    }
  }

  predicate SameLog(s: Recorder, n: Recorder) { SameCounts(s, n) && n.log.lost == s.log.lost }

  lemma StartCounts(s: Recorder, ok: bool, thrown: bool)
    ensures s.control.Preparing? ==> SameLog(s, Prepare(s, s.control.prepare, ok, thrown))
    ensures s.control.Spawning? ==> SameLog(s, Spawn(s, s.control.failed, ok))
  {
  }

  lemma FailCounts(s: Recorder, point: FailPoint, ok: bool)
    ensures SameLog(s, Fail(s, point, ok))
  {
  }

  lemma BodyCounts(s: Recorder, ok: bool)
    ensures s.control.PauseBody? ==> SameLog(s, PauseStep(s, s.control.pause))
    ensures s.control.StopBody? ==> SameLog(s, StopStep(s, s.control.stop, ok))
  {
  }

  lemma ControlCounts(s: Recorder, ok: bool, thrown: bool)
    requires !s.control.Choosing?
    ensures SameLog(s, NextControl(s, ok, thrown))
  {
    if s.control.Failing? {
      FailCounts(s, s.control.fail, ok);
    } else if s.control.PauseBody? || s.control.StopBody? {
      BodyCounts(s, ok);
    } else {
      StartCounts(s, ok, thrown);
    }
  }

  lemma {:induction false} RunStaysShort(s: Recorder, steps: seq<Step>)
    requires Inv(s) && LostStaysShort(s)
    ensures LostStaysShort(Run(s, steps))
    decreases |steps|
  {
    if steps != [] {
      StepKeepsInv(s, steps[0]);
      match steps[0] {
        case Produce(row, spurious) => ProducerStaysShort(s, row, spurious);
        case Write(ok, due) => WriterStaysShort(s, ok, due);
        case Command(operation) =>
        case Act(ok, thrown) => ControlStaysShort(s, ok, thrown);
      }
      RunStaysShort(Next(s, steps[0]), steps[1..]);
    }
  }

  /** written_samples can run ahead of accepted_samples, by one row, and exactly while the
      submission that pushed it has yet to count it, nothing is queued, the writer holds no
      row and has counted every row it wrote, and no row has been lost. */
  lemma WrittenLeadsExactly(steps: seq<Step>)
    ensures var s := After(steps);
            s.tally.written > s.tally.accepted <==>
            && s.producer.Submitting? && s.producer.at.Counting?
            && s.queue == [] && Held(s.writer) == [] && Untallied(s.writer) == 0
            && !s.log.lost
    ensures After(steps).tally.written <= After(steps).tally.accepted + 1
  {
    EveryRunIsSound(steps);
    InitialInv(INITIAL);
    RunStaysShort(INITIAL, steps);
    LeadsWhen(After(steps));
  }

  lemma LeadsWhen(s: Recorder)
    requires Inv(s) && LostStaysShort(s)
    ensures s.tally.written > s.tally.accepted <==>
            && s.producer.Submitting? && s.producer.at.Counting?
            && s.queue == [] && Held(s.writer) == [] && Untallied(s.writer) == 0
            && !s.log.lost
    ensures s.tally.written <= s.tally.accepted + 1
  {
    assert |s.log.accepted + InFlight(s.producer)| == |s.log.accepted| + |InFlight(s.producer)|;
    assert |s.log.rows + Held(s.writer) + s.queue| == |s.log.rows| + |Held(s.writer)| + |s.queue|;
  }

  // The drain ends.

  /** Steps the live submission still has to take before it leaves the gate. */
  function Remaining(p: Producer): nat {
    match p
    case Submitting(_, Admitted) => 7
    case Submitting(_, Publishing) => 3
    case Submitting(_, Counting) => 2
    case Submitting(_, Leaving) => 1
    case Overflowing(FirstClose) => 6
    case Overflowing(SecondClose) => 5
    case Overflowing(SetFlag) => 4
    case Overflowing(LoadState) => 3
    case Overflowing(CasState(_)) => 2
    case Overflowing(LeaveFull) => 1
    case _ => 0
  }

  /** What a closed gate leaves to be done: submission steps weigh two, because one of them
      adds a row to the queue. */
  function Backlog(s: Recorder): nat { 2 * Remaining(s.producer) + |s.queue| }

  /** Steps that get a closed recorder nearer to drained: every step of the live submission
      except a retried compare-and-swap, and every pop. */
  predicate Progress(s: Recorder, step: Step) {
    match step
    case Produce(_, spurious) =>
      Holds(s.producer) &&
      !(s.producer.Overflowing? && s.producer.overflow.CasState? &&
        s.producer.overflow.seenState !in {Error, Idle} &&
        (s.state != s.producer.overflow.seenState || spurious))
    case Write(_, _) => s.writer.Draining? && s.writer.drain.Take?
    case _ => false
  }

  lemma ProducerBacklog(s: Recorder, row: Row, spurious: bool)
    requires Inv(s) && !s.gate.open
    ensures Backlog(NextProducer(s, row, spurious)) <=
            Backlog(s) - (if Progress(s, Produce(row, spurious)) then 1 else 0)
  {
    match s.producer
    case Submitting(x, at) => SubmitBacklog(s, x, at);
    case Overflowing(point) => OverflowBacklog(s, point, row, spurious);
    case _ =>
  }

  lemma SubmitBacklog(s: Recorder, x: Row, at: SubmitPoint)
    requires s.producer == Submitting(x, at)
    ensures Backlog(Submit(s, x, at)) <= Backlog(s) - 1
  {
  }

  lemma OverflowBacklog(s: Recorder, point: OverflowPoint, row: Row, spurious: bool)
    requires s.producer == Overflowing(point)
    ensures Backlog(Overflow(s, point, spurious)) <=
            Backlog(s) - (if Progress(s, Produce(row, spurious)) then 1 else 0)
  {
  }

  lemma BacklogStep(s: Recorder, step: Step)
    requires Inv(s) && !s.gate.open && !Next(s, step).gate.open
    ensures Backlog(Next(s, step)) <= Backlog(s) - (if Progress(s, step) then 1 else 0)
  {
    match step
    case Produce(row, spurious) => ProducerBacklog(s, row, spurious);
    case Write(ok, due) => WriterLeaves(s, ok, due);
    case Command(operation) =>
    case Act(ok, thrown) => ControlLeaves(s, ok, thrown);
  }

  function ProgressCount(s: Recorder, steps: seq<Step>): nat
    decreases |steps|
  {
    if steps == [] then 0
    else (if Progress(s, steps[0]) then 1 else 0) + ProgressCount(Next(s, steps[0]), steps[1..])
  }

  /** While the gate stays closed a run can make at most `Backlog` progress steps, and a
      recorder with no backlog is drained: so a drain ends. */
  lemma {:induction false} DrainEnds(s: Recorder, steps: seq<Step>)
    requires Inv(s)
    requires forall k :: 0 <= k <= |steps| ==> !Run(s, steps[..k]).gate.open
    ensures ProgressCount(s, steps) + Backlog(Run(s, steps)) <= Backlog(s)
    ensures Backlog(Run(s, steps)) == 0 <==> Quiet(Run(s, steps))
    decreases |steps|
  {
    assert steps[..0] == [];
    assert !Run(s, steps[..0]).gate.open;
    if steps != [] {
      ClosedTail(s, steps);
      StepKeepsInv(s, steps[0]);
      BacklogStep(s, steps[0]);
      DrainEnds(Next(s, steps[0]), steps[1..]);
    }
  }

  lemma ClosedTail(s: Recorder, steps: seq<Step>)
    requires steps != []
    requires forall k :: 0 <= k <= |steps| ==> !Run(s, steps[..k]).gate.open
    ensures !Next(s, steps[0]).gate.open
    ensures forall k :: 0 <= k < |steps| ==> !Run(Next(s, steps[0]), steps[1..][..k]).gate.open
  {
    assert steps[..1] == [steps[0]];
    assert Run(Next(s, steps[0]), steps[..1][1..]) == Next(s, steps[0]);
    forall k | 0 <= k < |steps|
      ensures !Run(Next(s, steps[0]), steps[1..][..k]).gate.open
    {
      assert steps[..k + 1][1..] == steps[1..][..k];
    }
  }

  // Runs that show what is not promised.

  ghost predicate Reachable(s: Recorder) {
    exists steps :: After(steps) == s
  }

  lemma {:induction false} RunSnoc(s: Recorder, steps: seq<Step>, step: Step)
    ensures Run(s, steps + [step]) == Next(Run(s, steps), step)
    decreases |steps|
  {
    if steps == [] {
      assert [step][1..] == [];
      assert Run(Next(s, step), []) == Next(s, step);
    } else {
      assert (steps + [step])[1..] == steps[1..] + [step];
      RunSnoc(Next(s, steps[0]), steps[1..], step);
    }
  }

  lemma Go(s: Recorder, step: Step) returns (s': Recorder)
    requires Reachable(s)
    ensures s' == Next(s, step) && Reachable(s')
  {
    var steps :| After(steps) == s;
    RunSnoc(INITIAL, steps, step);
    s' := After(steps + [step]);
  }

  const ROW := Row(0, 0, 0, 0, 0, 0)
  const PRODUCE := Produce(ROW, false)
  const WRITE := Write(true, false)
  const ACT := Act(true, false)
  const FRESH := Log([], [], false, false, Archive([], [], []))

  /** A recorder with nothing queued, written or accepted yet. */
  function Plain(g: Admission, st: RecordingState, w: Writer, c: Control): Recorder {
    Recorder(g, [], st, EMPTY, false, true, Outside, w, c, FRESH)
  }

  lemma Twice(s: Recorder, a: Step, b: Step) returns (s': Recorder)
    requires Reachable(s)
    ensures s' == Next(Next(s, a), b) && Reachable(s')
  {
    s' := Go(s, a);
    s' := Go(s', b);
  }

  lemma ReachHeader() returns (s: Recorder)
    ensures Reachable(s) && s == Plain(SHUT, Starting, NoWriter, Preparing(Header))
  {
    s := ReachChosen();
    s := Twice(s, ACT, ACT);
  }

  lemma ReachChosen() returns (s: Recorder)
    ensures Reachable(s) && s == INITIAL.(control := Choosing(Reset))
  {
    assert After([]) == INITIAL;
    s := Go(INITIAL, Command(Start));
    s := Twice(s, ACT, ACT);
  }

  lemma ReachStarted() returns (s: Recorder)
    ensures Reachable(s) && s == Plain(OPENED, Recording, Draining([], Check), Ready)
  {
    s := ReachHeader();
    s := Twice(s, ACT, ACT);
    s := Twice(s, ACT, ACT);
  }

  lemma ReachSubmitting() returns (s: Recorder)
    ensures Reachable(s)
    ensures s == Plain(Admission(true, 1), Recording, Draining([], Check), Ready).(producer := Submitting(ROW, Admitted))
  {
    s := ReachStarted();
    s := Twice(s, PRODUCE, PRODUCE);
  }

  lemma ReachCounting() returns (s: Recorder)
    ensures Reachable(s)
    ensures s == Plain(Admission(true, 1), Recording, Draining([], Check), Ready).(
                   queue := [ROW], producer := Submitting(ROW, Counting))
  {
    s := ReachSubmitting();
    s := Twice(s, PRODUCE, PRODUCE);
  }

  lemma ReachEmitting() returns (s: Recorder)
    ensures Reachable(s) && s.tally.accepted == 0 && s.tally.written == 0
    ensures s.writer == Draining([ROW], Emit)
  {
    s := ReachCounting();
    s := Twice(s, WRITE, WRITE);
    s := Go(s, WRITE);
  }

  /** written_samples really does overtake accepted_samples: the row is popped, written and
      counted before the submission that pushed it has counted it. */
  lemma WrittenCanLead()
    ensures exists steps :: After(steps).tally.written > After(steps).tally.accepted
  {
    var s := ReachEmitting();
    s := Twice(s, WRITE, WRITE);
    var steps :| After(steps) == s;
  }

  lemma ReachAwaiting() returns (s: Recorder)
    ensures Reachable(s)
    ensures s == Plain(SHUT, Pausing, Draining([], Check), PauseBody(AwaitPaused))
  {
    s := ReachStarted();
    s := Go(s, Command(Pause));
    s := Go(s, ACT);
    s := Go(s, ACT);
    s := Go(s, ACT);
  }

  lemma ReachPaused() returns (s: Recorder)
    ensures Reachable(s)
    ensures s == Plain(SHUT, Paused, Draining([], Check), PauseBody(AwaitPaused))
  {
    s := ReachDrained();
    s := Twice(s, WRITE, WRITE);
  }

  lemma ReachDrained() returns (s: Recorder)
    ensures Reachable(s)
    ensures s == Plain(SHUT, Pausing, PauseDrained(false), PauseBody(AwaitPaused))
  {
    s := ReachAwaiting();
    s := Twice(s, WRITE, WRITE);
    s := Twice(s, WRITE, WRITE);
  }

  /** The writer's periodic flush fails in Paused, and it has closed the gate already. */
  lemma ReachFlushFailure() returns (s: Recorder)
    ensures Reachable(s)
    ensures s == Plain(SHUT, Paused, Erring(ErrorLoad, CloseFlush), Ready).(log := FRESH.(ioFailed := true))
  {
    s := ReachResting();
    s := Twice(s, Write(false, true), WRITE);
  }

  lemma ReachResting() returns (s: Recorder)
    ensures Reachable(s) && s == Plain(SHUT, Paused, Resting(TimedFlush), Ready)
  {
    s := ReachReturned();
    s := Twice(s, WRITE, WRITE);
  }

  /** pause() has returned. */
  lemma ReachReturned() returns (s: Recorder)
    ensures Reachable(s) && s == Plain(SHUT, Paused, Draining([], Check), Ready)
  {
    s := ReachPaused();
    s := Twice(s, ACT, ACT);
  }

  lemma ReachReopened() returns (s: Recorder)
    ensures Reachable(s) && s.gate == OPENED && s.state == Recording && s.control == Ready
    ensures s.writer == Erring(ErrorLoad, CloseFlush) && s.producer == Outside
  {
    s := ReachFlushFailure();
    s := Go(s, Command(Resume));
    s := Twice(s, ACT, ACT);
  }

  /** Error does not imply a closed gate: resume() can reopen it between the writer's close
      and its move to Error. `GateShutWhileDraining` says that only an I/O failure does this. */
  lemma ErrorWithOpenGate()
    ensures exists steps :: After(steps).state == Error && After(steps).gate.open
  {
    var s := ReachReopened();
    s := Twice(s, WRITE, WRITE);
    var steps :| After(steps) == s;
  }
}
