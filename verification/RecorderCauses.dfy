/** The Error state has a cause, and the operations succeed when there is none: an Error is an
    I/O failure or an overflow of the same session, and without either stop() ends in Idle and
    pause() in Paused. */
module RecorderCauses {
  import opened CaptureMetadata
  import opened RecorderProtocol
  import opened RecorderInvariant
  import opened RecorderTheorems
  import opened RecorderPublishing

  /** History: since the session began a submission has found the queue full. */
  predicate Overflowed(steps: seq<Step>)
    decreases |steps|
  {
    steps != [] &&
    (var init, last := steps[..|steps| - 1], steps[|steps| - 1];
     !Restarts(After(init), last) && (Overflowed(init) || After(steps).producer.Overflowing?))
  }

  // Each thread moves the state to Error only with a cause, no cause is forgotten, and an
  // Error stays.

  predicate KeepsCause(s: Recorder, n: Recorder) {
    && (n.state == Error ==> s.state == Error || n.log.ioFailed || s.producer.Overflowing?)
    && (s.log.ioFailed ==> n.log.ioFailed)
    && (s.state == Error ==> n.state == Error)
  }

  lemma SubmitKeepsCause(s: Recorder, x: Row, at: SubmitPoint)
    ensures KeepsCause(s, Submit(s, x, at))
  {
  }

  lemma OverflowKeepsCause(s: Recorder, point: OverflowPoint, spurious: bool)
    requires s.producer == Overflowing(point)
    ensures KeepsCause(s, Overflow(s, point, spurious))
  {
  }

  lemma ProducerKeepsCause(s: Recorder, row: Row, spurious: bool)
    ensures KeepsCause(s, NextProducer(s, row, spurious))
  {
    match s.producer
    case Submitting(x, at) => SubmitKeepsCause(s, x, at);
    case Overflowing(point) => OverflowKeepsCause(s, point, spurious);
    case _ =>
  }

  lemma DrainKeepsCause(s: Recorder, batch: seq<Row>, point: DrainPoint, ok: bool)
    ensures KeepsCause(s, Drain(s, batch, point, ok))
  {
  }

  lemma LoopKeepsCause(s: Recorder, ok: bool, due: bool)
    ensures KeepsCause(s, Observe(s))
    ensures s.writer.Checking? ==> KeepsCause(s, CheckDrained(s, s.writer.seen, s.writer.gateDrained))
    ensures s.writer.PauseDrained? ==> KeepsCause(s, CompletePause(s, s.writer.flushed, ok))
    ensures s.writer.Resting? ==> KeepsCause(s, Rest(s, s.writer.rest, ok, due))
  {
  }

  lemma FinalKeepsCause(s: Recorder, point: FinalPoint, ok: bool)
    ensures KeepsCause(s, Finalize(s, point, ok))
  {
  }

  lemma EndKeepsCause(s: Recorder, ok: bool)
    ensures s.writer.Erring? && s.log.ioFailed ==> KeepsCause(s, WriterError(s, s.writer.err, s.writer.next, ok))
    ensures s.writer.Closing? ==> KeepsCause(s, CloseFile(s, s.writer.close, ok))
  {
  }

  lemma WriterKeepsCause(s: Recorder, ok: bool, due: bool)
    requires Inv(s)
    ensures KeepsCause(s, NextWriter(s, ok, due))
  {
    match s.writer
    case Draining(batch, point) => DrainKeepsCause(s, batch, point, ok);
    case Finalizing(point) => FinalKeepsCause(s, point, ok);
    case Erring(_, _) => EndKeepsCause(s, ok);
    case Closing(_) => EndKeepsCause(s, ok);
    case Tallying(_) =>
    case Announcing =>
    case _ => LoopKeepsCause(s, ok, due);
  }

  lemma ChooseKeepsCause(s: Recorder, point: ChoicePoint, ok: bool)
    requires s.control == Choosing(point) && !point.Reset?
    ensures KeepsCause(s, Choose(s, point, ok))
  {
  }

  lemma StartKeepsCause(s: Recorder, ok: bool, thrown: bool)
    requires Inv(s)
    ensures s.control.Preparing? ==> KeepsCause(s, Prepare(s, s.control.prepare, ok, thrown))
    ensures s.control.Spawning? ==> KeepsCause(s, Spawn(s, s.control.failed, ok))
  {
  }

  lemma FailKeepsCause(s: Recorder, point: FailPoint, ok: bool)
    requires Inv(s) && s.control == Failing(point)
    ensures KeepsCause(s, Fail(s, point, ok))
  {
  }

  lemma BodyKeepsCause(s: Recorder, ok: bool)
    ensures s.control.PauseBody? ==> KeepsCause(s, PauseStep(s, s.control.pause))
    ensures s.control.StopBody? ==> KeepsCause(s, StopStep(s, s.control.stop, ok))
  {
  }

  lemma EntryKeepsCause(s: Recorder)
    ensures s.control.PauseEntry? ==> KeepsCause(s, EnterPause(s, s.control.closing))
    ensures s.control.StopEntry? ==> KeepsCause(s, EnterStop(s, s.control.closing))
    ensures KeepsCause(s, MarkResumed(s)) && KeepsCause(s, OpenResumed(s))
  {
  }

  lemma ControlKeepsCause(s: Recorder, ok: bool, thrown: bool)
    requires Inv(s) && s.control != Choosing(Reset)
    ensures KeepsCause(s, NextControl(s, ok, thrown))
  {
    match s.control
    case Choosing(point) => ChooseKeepsCause(s, point, ok);
    case Preparing(_) => StartKeepsCause(s, ok, thrown);
    case Spawning(_) => StartKeepsCause(s, ok, thrown);
    case Failing(point) => FailKeepsCause(s, point, ok);
    case PauseBody(_) => BodyKeepsCause(s, ok);
    case StopBody(_) => BodyKeepsCause(s, ok);
    case Ready =>
    case ResumeFailed => assert false;
    case _ => EntryKeepsCause(s);
  }

  lemma StepKeepsCause(s: Recorder, step: Step)
    requires Inv(s) && !Restarts(s, step)
    ensures KeepsCause(s, Next(s, step))
  {
    match step
    case Produce(row, spurious) => ProducerKeepsCause(s, row, spurious);
    case Write(ok, due) => WriterKeepsCause(s, ok, due);
    case Command(operation) =>
    case Act(ok, thrown) => ControlKeepsCause(s, ok, thrown);
  }

  lemma RestartIsNoError(s: Recorder, step: Step)
    requires Restarts(s, step)
    ensures Next(s, step).state == Starting
  {
  }

  /** In every run an Error is due to an I/O failure or an overflow of its session. */
  lemma {:induction false} ErrorHasCause(steps: seq<Step>)
    requires After(steps).state == Error
    ensures After(steps).log.ioFailed || Overflowed(steps)
    decreases |steps|
  {
    assert After([]) == INITIAL;
    if steps != [] {
      var init, last := steps[..|steps| - 1], steps[|steps| - 1];
      AfterLast(steps);
      EveryRunIsSound(init);
      if Restarts(After(init), last) {
        RestartIsNoError(After(init), last);
      } else {
        StepKeepsCause(After(init), last);
        if After(init).state == Error {
          ErrorHasCause(init);
        } else if After(init).producer.Overflowing? {
          OverflowIsNoted(init);
        }
      }
    }
  }

  /** A submission that is in its overflow has found the queue full since the session began. */
  lemma {:induction false} OverflowIsNoted(steps: seq<Step>)
    requires After(steps).producer.Overflowing?
    ensures Overflowed(steps)
  {
    assert After([]) == INITIAL;
    if steps != [] {
      var init, last := steps[..|steps| - 1], steps[|steps| - 1];
      AfterLast(steps);
      EveryRunIsSound(init);
      if Restarts(After(init), last) {
        RestartIsAlone(After(init), last);
      }
    }
  }

  lemma RestartIsAlone(s: Recorder, step: Step)
    requires Inv(s) && Restarts(s, step)
    ensures !Next(s, step).producer.Overflowing?
  {
  }

  /** Without an I/O failure and without an overflow stop() ends in Idle: the session's one data
      file and its one summary are published and say exactly the rows accepted since start. */
  lemma StopSucceeds(steps: seq<Step>)
    requires After(steps).control == StopBody(StopReturn)
    requires !After(steps).log.ioFailed && !Overflowed(steps)
    ensures After(steps).state == Idle
    ensures After(steps).log.archive == WithReport(StartArchive(steps), After(steps).log.accepted)
  {
    StopPublishes(steps);
    if After(steps).state == Error {
      ErrorHasCause(steps);
    }
  }

  /** And pause() ends in Paused, with the accepted rows in the file. */
  lemma PauseSucceeds(steps: seq<Step>)
    requires After(steps).control == PauseBody(PauseReturn)
    requires !After(steps).log.ioFailed && !Overflowed(steps)
    ensures After(steps).state == Paused && After(steps).log.rows == After(steps).log.accepted
  {
    EveryRunIsSound(steps);
    if After(steps).state == Error {
      ErrorHasCause(steps);
    }
    PausedIsExact(steps);
  }

  // An overflow does end in Error, and so does an I/O failure.

  /** The submission has still to move the state after its overflow. */
  predicate Unnoticed(p: Producer) { p.Overflowing? && !p.overflow.LeaveFull? }

  /** The writer or start() has still to move the state after a failure. */
  predicate Unsettled(w: Writer, c: Control) {
    w.Erring? || c.Spawning? || (c.Failing? && c.fail.FailError?)
  }

  /** What the overflowing submission has read or written. */
  predicate Notices(p: Producer, st: RecordingState) {
    && (p.Overflowing? && p.overflow.CasState? ==>
          !p.overflow.seenState.Idle? && (p.overflow.seenState.Error? ==> st.Error?))
    && (p.Overflowing? && p.overflow.LeaveFull? ==> st.Error?)
  }

  predicate Settles(s: Recorder) { s.log.ioFailed && !Unsettled(s.writer, s.control) ==> s.state == Error }

  predicate Shows(s: Recorder) { Notices(s.producer, s.state) && Settles(s) }

  lemma OverflowShows(s: Recorder, point: OverflowPoint, spurious: bool)
    requires s.producer == Overflowing(point) && Notices(s.producer, s.state) && !s.state.Idle?
    ensures var n := Overflow(s, point, spurious);
            Notices(n.producer, n.state) && (!n.producer.Overflowing? ==> n.state == Error)
  {
  }

  /** Only an overflow leaves an overflow, with the state in Error. */
  lemma ProducerShows(s: Recorder, row: Row, spurious: bool)
    requires Inv(s) && Shows(s)
    ensures var n := NextProducer(s, row, spurious);
            Shows(n) && (s.producer.Overflowing? && !n.producer.Overflowing? ==> n.state == Error)
  {
    ProducerKeepsCause(s, row, spurious);
    ProducerOnly(s, row, spurious);
    if s.producer.Overflowing? {
      OverflowShows(s, s.producer.overflow, spurious);
    }
  }

  lemma ProducerOnly(s: Recorder, row: Row, spurious: bool)
    ensures var n := NextProducer(s, row, spurious);
            && n.writer == s.writer && n.control == s.control && n.log.ioFailed == s.log.ioFailed
            && (!s.producer.Overflowing? && n.producer.Overflowing? ==> n.producer.overflow.FirstClose?)
  {
  }

  /** A state that is not Error moves only under the eyes of a submission that has not yet
      read it as Error. */
  lemma NoticesStays(p: Producer, was: RecordingState, now: RecordingState)
    requires Notices(p, was) && (was == Error ==> now == Error)
    ensures Notices(p, now)
  {
  }

  lemma EndSettles(s: Recorder, ok: bool)
    requires Inv(s) && Settles(s)
    ensures s.writer.Erring? ==> Settles(WriterError(s, s.writer.err, s.writer.next, ok))
    ensures s.writer.Closing? ==> Settles(CloseFile(s, s.writer.close, ok))
  {
  }

  /** Outside its error path the writer has not failed, and goes there when it does. */
  lemma WorkSettles(s: Recorder, ok: bool, due: bool)
    requires !s.writer.Erring? && !s.writer.Closing? && KeepsCause(s, NextWriter(s, ok, due)) && Settles(s)
    ensures Settles(NextWriter(s, ok, due))
  {
    match s.writer
    case Draining(batch, point) => DrainSettles(s, batch, point, ok);
    case Finalizing(point) => FinalSettles(s, point, ok);
    case _ => LoopSettles(s, ok, due);
  }

  /** A step that fails leaves the writer about to report it. */
  predicate Reports(s: Recorder, n: Recorder) {
    n.control == s.control && (n.log.ioFailed ==> s.log.ioFailed || n.writer.Erring?)
  }

  lemma ReportsSettles(s: Recorder, n: Recorder)
    requires Settles(s) && KeepsCause(s, n) && Reports(s, n) && !s.writer.Erring?
    ensures Settles(n)
  {
  }

  lemma DrainSettles(s: Recorder, batch: seq<Row>, point: DrainPoint, ok: bool)
    requires s.writer == Draining(batch, point) && KeepsCause(s, Drain(s, batch, point, ok)) && Settles(s)
    ensures Settles(Drain(s, batch, point, ok))
  {
    ReportsSettles(s, Drain(s, batch, point, ok));
  }

  lemma FinalSettles(s: Recorder, point: FinalPoint, ok: bool)
    requires s.writer == Finalizing(point) && KeepsCause(s, Finalize(s, point, ok)) && Settles(s)
    ensures Settles(Finalize(s, point, ok))
  {
    ReportsSettles(s, Finalize(s, point, ok));
  }

  lemma LoopSettles(s: Recorder, ok: bool, due: bool)
    requires !s.writer.Erring? && !s.writer.Closing? && !s.writer.Draining? && !s.writer.Finalizing?
    requires KeepsCause(s, NextWriter(s, ok, due)) && Settles(s)
    ensures Settles(NextWriter(s, ok, due))
  {
    ReportsSettles(s, NextWriter(s, ok, due));
  }

  lemma WriterShows(s: Recorder, ok: bool, due: bool)
    requires Inv(s) && Shows(s)
    ensures Shows(NextWriter(s, ok, due))
  {
    WriterKeepsCause(s, ok, due);
    WriterLeaves(s, ok, due);
    NoticesStays(s.producer, s.state, NextWriter(s, ok, due).state);
    if s.writer.Erring? || s.writer.Closing? {
      EndSettles(s, ok);
    } else {
      WorkSettles(s, ok, due);
    }
  }

  lemma FailSettles(s: Recorder, point: FailPoint, ok: bool)
    requires Inv(s) && s.control == Failing(point) && Settles(s)
    ensures Settles(Fail(s, point, ok))
  {
  }

  lemma StartSettles(s: Recorder, ok: bool, thrown: bool)
    requires Inv(s) && Settles(s)
    ensures s.control.Preparing? ==> Settles(Prepare(s, s.control.prepare, ok, thrown))
    ensures s.control.Spawning? ==> Settles(Spawn(s, s.control.failed, ok))
  {
  }

  lemma ChooseSettles(s: Recorder, point: ChoicePoint, ok: bool)
    requires s.control == Choosing(point) && Settles(s)
    ensures Settles(Choose(s, point, ok))
  {
  }

  /** The other operations neither fail nor report. */
  lemma EntrySettles(s: Recorder, n: Recorder)
    requires Settles(s) && KeepsCause(s, n) && n.log.ioFailed == s.log.ioFailed
    requires Unsettled(s.writer, s.control) ==> Unsettled(n.writer, n.control)
    ensures Settles(n)
  {
  }

  lemma BodySettles(s: Recorder, ok: bool, thrown: bool)
    requires Inv(s) && Settles(s)
    requires !s.control.Choosing? && !s.control.Preparing? && !s.control.Spawning? && !s.control.Failing?
    ensures Settles(NextControl(s, ok, thrown))
  {
    ControlKeepsCause(s, ok, thrown);
    BodyLeaves(s, ok, thrown);
    EntrySettles(s, NextControl(s, ok, thrown));
  }

  predicate Harmless(s: Recorder, n: Recorder) {
    n.log.ioFailed == s.log.ioFailed && (s.writer.Erring? ==> n.writer == s.writer)
  }

  lemma PauseHarmless(s: Recorder, point: PausePoint)
    ensures Harmless(s, PauseStep(s, point))
  {
  }

  lemma StopHarmless(s: Recorder, point: StopPoint, ok: bool)
    ensures Harmless(s, StopStep(s, point, ok))
  {
  }

  lemma EntryHarmless(s: Recorder)
    ensures s.control.PauseEntry? ==> Harmless(s, EnterPause(s, s.control.closing))
    ensures s.control.StopEntry? ==> Harmless(s, EnterStop(s, s.control.closing))
    ensures Harmless(s, MarkResumed(s)) && Harmless(s, OpenResumed(s))
  {
  }

  lemma BodyLeaves(s: Recorder, ok: bool, thrown: bool)
    requires Inv(s)
    requires !s.control.Choosing? && !s.control.Preparing? && !s.control.Spawning? && !s.control.Failing?
    ensures Harmless(s, NextControl(s, ok, thrown))
  {
    match s.control
    case PauseBody(point) => PauseHarmless(s, point);
    case StopBody(point) => StopHarmless(s, point, ok);
    case Ready =>
    case ResumeFailed => assert false;
    case _ => EntryHarmless(s);
  }

  lemma ControlShows(s: Recorder, ok: bool, thrown: bool)
    requires Inv(s) && Shows(s)
    ensures Shows(NextControl(s, ok, thrown))
  {
    if s.control != Choosing(Reset) {
      ControlKeepsCause(s, ok, thrown);
      NoticesStays(s.producer, s.state, NextControl(s, ok, thrown).state);
    }
    ControlLeaves(s, ok, thrown);
    match s.control
    case Choosing(point) => ChooseSettles(s, point, ok);
    case Failing(point) => FailSettles(s, point, ok);
    case Preparing(_) => StartSettles(s, ok, thrown);
    case Spawning(_) => StartSettles(s, ok, thrown);
    case _ => BodySettles(s, ok, thrown);
  }

  lemma StepShows(s: Recorder, step: Step)
    requires Inv(s) && Shows(s)
    ensures Shows(Next(s, step))
  {
    match step
    case Produce(row, spurious) => ProducerShows(s, row, spurious);
    case Write(ok, due) => WriterShows(s, ok, due);
    case Command(operation) =>
    case Act(ok, thrown) => ControlShows(s, ok, thrown);
  }

  lemma {:induction false} RunShows(steps: seq<Step>)
    ensures Shows(After(steps))
    decreases |steps|
  {
    assert After([]) == INITIAL;
    if steps != [] {
      RunShows(steps[..|steps| - 1]);
      AfterLast(steps);
      EveryRunIsSound(steps[..|steps| - 1]);
      StepShows(After(steps[..|steps| - 1]), steps[|steps| - 1]);
    }
  }

  lemma OthersKeepProducer(s: Recorder, step: Step)
    requires Inv(s) && !step.Produce?
    ensures Next(s, step).producer == s.producer
  {
    match step
    case Write(ok, due) => WriterLeaves(s, ok, due);
    case Act(ok, thrown) => ControlLeaves(s, ok, thrown);
    case _ =>
  }

  /** Once a submission has overflowed and left, the recorder is in Error until it restarts. */
  lemma {:induction false} OverflowFails(steps: seq<Step>)
    requires Overflowed(steps) && !After(steps).producer.Overflowing?
    ensures After(steps).state == Error
    decreases |steps|
  {
    var init, last := steps[..|steps| - 1], steps[|steps| - 1];
    AfterLast(steps);
    EveryRunIsSound(init);
    RunShows(init);
    StepKeepsCause(After(init), last);
    if After(init).producer.Overflowing? {
      if last.Produce? {
        ProducerShows(After(init), last.row, last.spurious);
      } else {
        OthersKeepProducer(After(init), last);
        assert false;
      }
    } else {
      OverflowFails(init);
    }
  }

  /** Exactly when the recorder is in Error: in every run, as soon as the threads that know of
      a cause have reported it, the state is Error if and only if a file operation or the start
      of the writer has failed, or a submission has overflowed, since the session began. */
  lemma ErrorExactly(steps: seq<Step>)
    requires !Unnoticed(After(steps).producer) && !Unsettled(After(steps).writer, After(steps).control)
    ensures After(steps).state == Error <==> After(steps).log.ioFailed || Overflowed(steps)
  {
    RunShows(steps);
    if After(steps).state == Error {
      ErrorHasCause(steps);
    }
    if Overflowed(steps) && !After(steps).producer.Overflowing? {
      OverflowFails(steps);
    }
  }

  // A failure is a step that fails.

  /** No file operation fails, and no thread fails to start. */
  predicate Succeeds(step: Step) {
    match step
    case Write(ok, _) => ok
    case Act(ok, _) => ok
    case _ => true
  }

  predicate Flawless(steps: seq<Step>) { forall step <- steps :: Succeeds(step) }

  /** Nothing has failed and no batch is torn. */
  predicate Whole(s: Recorder) { !s.log.ioFailed && !(s.writer.Draining? && s.writer.drain.Tear?) }

  lemma WriterStaysWhole(s: Recorder, due: bool)
    requires Inv(s) && Whole(s)
    ensures Whole(NextWriter(s, true, due))
  {
    match s.writer
    case Draining(batch, point) =>
    case Finalizing(point) => FinalStaysWhole(s, point);
    case Erring(_, _) => assert false;
    case Closing(point) => CloseStaysWhole(s, point);
    case _ => LoopStaysWhole(s, due);
  }

  lemma FinalStaysWhole(s: Recorder, point: FinalPoint)
    requires Whole(s)
    ensures Whole(Finalize(s, point, true))
  {
  }

  lemma CloseStaysWhole(s: Recorder, point: ClosePoint)
    requires Whole(s)
    ensures Whole(CloseFile(s, point, true))
  {
  }

  lemma LoopStaysWhole(s: Recorder, due: bool)
    requires Whole(s) && !s.writer.Draining? && !s.writer.Finalizing? && !s.writer.Erring? && !s.writer.Closing?
    ensures Whole(NextWriter(s, true, due))
  {
  }

  lemma ControlStaysWhole(s: Recorder, thrown: bool)
    requires Inv(s) && Whole(s)
    ensures Whole(NextControl(s, true, thrown))
  {
    match s.control
    case Choosing(point) =>
    case Preparing(point) => PrepareStaysWhole(s, point, thrown);
    case Spawning(failed) =>
    case Failing(point) =>
    case _ =>
      BodyLeaves(s, true, thrown);
      BodyKeepsWriter(s, thrown);
  }

  /** Opening the gate at start does not fail. */
  lemma PrepareStaysWhole(s: Recorder, point: PreparePoint, thrown: bool)
    requires Inv(s) && Whole(s) && s.control == Preparing(point)
    ensures Whole(Prepare(s, point, true, thrown))
  {
  }

  lemma BodyKeepsWriter(s: Recorder, thrown: bool)
    requires !s.control.Choosing? && !s.control.Preparing? && !s.control.Spawning? && !s.control.Failing?
    ensures var n := NextControl(s, true, thrown); n.writer == s.writer || n.writer.NoWriter?
  {
  }

  lemma StepStaysWhole(s: Recorder, step: Step)
    requires Inv(s) && Whole(s) && Succeeds(step)
    ensures Whole(Next(s, step))
  {
    match step
    case Produce(row, spurious) => ProducerOnly(s, row, spurious);
    case Write(ok, due) => WriterStaysWhole(s, due);
    case Command(operation) =>
    case Act(ok, thrown) => ControlStaysWhole(s, thrown);
  }

  /** In a run in which nothing fails no failure is recorded, so its only Errors are overflows
      and its only way out of stop() without an overflow is Idle. */
  lemma {:induction false} FlawlessNeverFails(steps: seq<Step>)
    requires Flawless(steps)
    ensures !After(steps).log.ioFailed
    ensures Whole(After(steps))
    ensures After(steps).control == StopBody(StopReturn) && !Overflowed(steps) ==> After(steps).state == Idle
    decreases |steps|
  {
    assert After([]) == INITIAL;
    if steps != [] {
      var init, last := steps[..|steps| - 1], steps[|steps| - 1];
      assert last in steps && forall step <- init :: step in steps;
      FlawlessNeverFails(init);
      AfterLast(steps);
      EveryRunIsSound(init);
      StepStaysWhole(After(init), last);
    }
    if After(steps).control == StopBody(StopReturn) && !Overflowed(steps) {
      StopSucceeds(steps);
    }
  }
}
