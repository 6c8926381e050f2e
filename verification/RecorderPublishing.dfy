/** What stop() leaves behind when it succeeds: one data file and one complete summary more
    than at start, both exactly the rows accepted in between. */
module RecorderPublishing {
  import opened CaptureMetadata
  import opened RecorderProtocol
  import opened RecorderInvariant
  import opened RecorderTheorems

  /** The step of start() that forgets the last session. */
  predicate Restarts(s: Recorder, step: Step) { step.Act? && s.control == Choosing(Reset) }

  /** History: what had been published when the session began. */
  function StartArchive(steps: seq<Step>): Archive {
    if steps == [] then INITIAL.log.archive
    else
      var init := After(steps[..|steps| - 1]);
      if Restarts(init, steps[|steps| - 1]) then init.log.archive else StartArchive(steps[..|steps| - 1])
  }

  function WithData(a: Archive, accepted: seq<Row>): Archive {
    a.(promotions := a.promotions + [Promotion(accepted, accepted)])
  }

  function WithReport(a: Archive, accepted: seq<Row>): Archive {
    WithData(a, accepted).(reports := a.reports + [Report(|accepted|, |accepted|, Summary(accepted), accepted)])
  }

  /** The session has not published anything yet. */
  predicate Collects(w: Writer, c: Control) {
    || (w.NoWriter? && (c.Preparing? || c.Spawning?))
    || w.Draining? || w.Tallying? || w.Observing? || w.Checking? || w.PauseDrained? || w.Resting?
    || (w.Finalizing? && (w.final.StopFlush? || w.final.StopClose? || w.final.Promote?))
  }

  /** It has published its data file. */
  predicate Promotes(w: Writer) {
    w.Finalizing? && !w.final.StopFlush? && !w.final.StopClose? && !w.final.Promote? && !w.final.CommitIdle?
  }

  /** It has published its summary too. */
  predicate Concludes(w: Writer, c: Control, st: RecordingState) {
    w == Finalizing(CommitIdle) || (st.Idle? && c.StopBody?)
  }

  predicate Publishes(w: Writer, c: Control, st: RecordingState, a: Archive, start: Archive, accepted: seq<Row>) {
    && (Collects(w, c) ==> a == start)
    && (Promotes(w) ==> a == WithData(start, accepted))
    && (Concludes(w, c, st) ==> a == WithReport(start, accepted))
  }

  predicate Published(s: Recorder, start: Archive) {
    Publishes(s.writer, s.control, s.state, s.log.archive, start, s.log.accepted)
  }

  // The producer.

  /** Only a submission that is inside the gate accepts a row, and none is left to conclude with. */
  lemma NoneInside(s: Recorder)
    requires Inv(s) && (Promotes(s.writer) || Concludes(s.writer, s.control, s.state))
    ensures !Holds(s.producer)
  {
  }

  lemma ProducerAccepts(s: Recorder, row: Row, spurious: bool)
    ensures var n := NextProducer(s, row, spurious);
            (!Holds(s.producer) ==> n.log.accepted == s.log.accepted) &&
            (n.state == s.state || n.state == Error) && n.control == s.control
  {
  }

  lemma ProducerPublishes(s: Recorder, row: Row, spurious: bool, start: Archive)
    requires Inv(s) && Published(s, start)
    ensures Published(NextProducer(s, row, spurious), start)
  {
    ProducerFrame(s, row, spurious);
    ProducerAccepts(s, row, spurious);
    if Promotes(s.writer) || Concludes(s.writer, s.control, s.state) {
      NoneInside(s);
    }
  }

  // The writer.

  lemma FinalizePublishes(s: Recorder, point: FinalPoint, ok: bool, start: Archive)
    requires Sound(s) && Published(s, start) && s.writer == Finalizing(point)
    ensures Published(Finalize(s, point, ok), start)
  {
    QuietIsExact(s);
    assert s.log.rows + [] == s.log.rows;
    FinalizeMoves(s, point, ok, start);
  }

  lemma FinalizeMoves(s: Recorder, point: FinalPoint, ok: bool, start: Archive)
    requires Published(s, start) && s.writer == Finalizing(point) && s.log.rows == s.log.accepted
    requires point.FinishMetadata? ==>
               point.acceptedTotal == point.writtenTotal == |s.log.accepted| &&
               s.tally.capture == Summary(s.log.accepted)
    requires !s.state.Idle?
    ensures Published(Finalize(s, point, ok), start)
  {
    if point.StopFlush? || point.StopClose? || point.Promote? {
      DataMoves(s, point, ok, start);
    } else {
      ReportMoves(s, point, ok, start);
    }
  }

  lemma DataMoves(s: Recorder, point: FinalPoint, ok: bool, start: Archive)
    requires Published(s, start) && s.writer == Finalizing(point) && s.log.rows == s.log.accepted
    requires (point.StopFlush? || point.StopClose? || point.Promote?) && !s.state.Idle?
    ensures Published(Finalize(s, point, ok), start)
  {
  }

  lemma ReportMoves(s: Recorder, point: FinalPoint, ok: bool, start: Archive)
    requires Published(s, start) && s.writer == Finalizing(point) && !s.state.Idle?
    requires !point.StopFlush? && !point.StopClose? && !point.Promote?
    requires point.FinishMetadata? ==>
               point.acceptedTotal == point.writtenTotal == |s.log.accepted| &&
               s.tally.capture == Summary(s.log.accepted)
    ensures Published(Finalize(s, point, ok), start)
  {
  }

  lemma LoopPublishes(s: Recorder, ok: bool, due: bool, start: Archive)
    requires Inv(s) && Published(s, start) && Collects(s.writer, s.control) && !s.writer.Finalizing?
    ensures Published(NextWriter(s, ok, due), start)
  {
    WriterLeaves(s, ok, due);
    LoopMoves(s, ok, due);
  }

  /** A step of the writer's loop changes the state to Paused at most. */
  predicate Loops(s: Recorder, n: Recorder) {
    n.control == s.control && (n.state == s.state || n.state == Paused) && !Promotes(n.writer) &&
    n.writer != Finalizing(CommitIdle)
  }

  lemma DrainLoops(s: Recorder, batch: seq<Row>, point: DrainPoint, ok: bool)
    ensures Loops(s, Drain(s, batch, point, ok)) || Drain(s, batch, point, ok) == s
  {
  }

  lemma CheckLoops(s: Recorder, seen: RecordingState, gateDrained: bool)
    ensures Loops(s, CheckDrained(s, seen, gateDrained))
  {
  }

  lemma PauseLoops(s: Recorder, flushed: bool, ok: bool)
    ensures Loops(s, CompletePause(s, flushed, ok))
  {
  }

  lemma RestLoops(s: Recorder, point: RestPoint, ok: bool, due: bool)
    ensures Loops(s, Rest(s, point, ok, due)) || Rest(s, point, ok, due) == s
  {
  }

  lemma LoopMoves(s: Recorder, ok: bool, due: bool)
    requires Collects(s.writer, s.control) && !s.writer.Finalizing?
    ensures Loops(s, NextWriter(s, ok, due))
  {
    match s.writer
    case Draining(batch, point) => DrainLoops(s, batch, point, ok);
    case Checking(seen, gateDrained) => CheckLoops(s, seen, gateDrained);
    case PauseDrained(flushed) => PauseLoops(s, flushed, ok);
    case Resting(point) => RestLoops(s, point, ok, due);
    case _ =>
  }

  /** The way out of a failure or of a success publishes nothing more. */
  lemma EndPublishes(s: Recorder, ok: bool, due: bool, start: Archive)
    requires Inv(s) && Published(s, start) && !Collects(s.writer, s.control) && !s.writer.Finalizing?
    ensures Published(NextWriter(s, ok, due), start)
  {
    match s.writer
    case Erring(point, next) => ErringPublishes(s, point, next, ok, start);
    case Closing(point) => ClosingPublishes(s, point, ok, start);
    case _ =>
  }

  lemma ErringPublishes(s: Recorder, point: ErrorPoint, next: ClosePoint, ok: bool, start: Archive)
    requires Inv(s) && Published(s, start) && s.writer == Erring(point, next)
    ensures Published(WriterError(s, point, next, ok), start)
  {
  }

  lemma ClosingPublishes(s: Recorder, point: ClosePoint, ok: bool, start: Archive)
    requires Inv(s) && s.writer == Closing(point)
    ensures Published(CloseFile(s, point, ok), start)
  {
  }

  lemma WriterPublishes(s: Recorder, ok: bool, due: bool, start: Archive)
    requires Sound(s) && Published(s, start)
    ensures Published(NextWriter(s, ok, due), start)
  {
    if s.writer.Finalizing? {
      FinalizePublishes(s, s.writer.final, ok, start);
    } else if Collects(s.writer, s.control) {
      LoopPublishes(s, ok, due, start);
    } else {
      EndPublishes(s, ok, due, start);
    }
  }

  // The control operations.

  /** What the session's part of the archive does not depend on. */
  predicate Leaves(s: Recorder, n: Recorder) {
    && n.log.archive == s.log.archive && n.log.accepted == s.log.accepted
    && (Collects(n.writer, n.control) ==> Collects(s.writer, s.control))
    && (Promotes(n.writer) ==> Promotes(s.writer))
    && (Concludes(n.writer, n.control, n.state) ==> Concludes(s.writer, s.control, s.state))
  }

  lemma LeavesPublishes(s: Recorder, n: Recorder, start: Archive)
    requires Published(s, start) && Leaves(s, n)
    ensures Published(n, start)
  {
  }

  lemma ChooseLeaves(s: Recorder, point: ChoicePoint, ok: bool)
    requires s.control == Choosing(point) && !point.Reset?
    ensures Leaves(s, Choose(s, point, ok))
  {
  }

  /** A new session starts with what is there. */
  lemma ResetPublishes(s: Recorder, ok: bool)
    requires Inv(s) && s.control == Choosing(Reset)
    ensures Published(Choose(s, Reset, ok), s.log.archive)
  {
  }

  lemma PrepareLeaves(s: Recorder, point: PreparePoint, ok: bool, thrown: bool)
    requires Inv(s) && s.control == Preparing(point)
    ensures Leaves(s, Prepare(s, point, ok, thrown))
  {
  }

  lemma SpawnLeaves(s: Recorder, failed: bool, ok: bool)
    requires Inv(s) && s.control == Spawning(failed)
    ensures Leaves(s, Spawn(s, failed, ok))
  {
  }

  /** A failed start concludes nothing. */
  lemma FailPublishes(s: Recorder, point: FailPoint, ok: bool, start: Archive)
    requires Inv(s) && s.control == Failing(point)
    ensures Published(Fail(s, point, ok), start)
  {
  }

  lemma PauseLeaves(s: Recorder, point: PausePoint)
    requires s.control == PauseBody(point)
    ensures Leaves(s, PauseStep(s, point))
  {
  }

  lemma StopLeaves(s: Recorder, point: StopPoint, ok: bool)
    requires Inv(s) && s.control == StopBody(point)
    ensures Leaves(s, StopStep(s, point, ok))
  {
  }

  lemma EntryLeaves(s: Recorder, ok: bool, thrown: bool)
    requires Inv(s) && (s.control.PauseEntry? || s.control.StopEntry? || s.control.ResumeMark? || s.control.ResumeOpen?)
    ensures Leaves(s, NextControl(s, ok, thrown))
  {
    match s.control
    case PauseEntry(closing) => PauseEntryLeaves(s, closing);
    case StopEntry(closing) => StopEntryLeaves(s, closing);
    case _ => ResumeLeaves(s);
  }

  lemma PauseEntryLeaves(s: Recorder, closing: bool)
    requires s.control == PauseEntry(closing)
    ensures Leaves(s, EnterPause(s, closing))
  {
  }

  lemma StopEntryLeaves(s: Recorder, closing: bool)
    requires Inv(s) && s.control == StopEntry(closing)
    ensures Leaves(s, EnterStop(s, closing))
  {
  }

  lemma ResumeLeaves(s: Recorder)
    requires Inv(s)
    ensures s.control.ResumeMark? ==> Leaves(s, MarkResumed(s))
    ensures s.control.ResumeOpen? ==> Leaves(s, OpenResumed(s))
  {
  }

  lemma ControlPublishes(s: Recorder, ok: bool, thrown: bool, start: Archive)
    requires Inv(s) && Published(s, start) && s.control != Choosing(Reset)
    ensures Published(NextControl(s, ok, thrown), start)
  {
    match s.control
    case Ready =>
    case Failing(point) => FailPublishes(s, point, ok, start);
    case ResumeFailed => assert false;
    case _ =>
      ControlLeavesArchive(s, ok, thrown);
      LeavesPublishes(s, NextControl(s, ok, thrown), start);
  }

  lemma ControlLeavesArchive(s: Recorder, ok: bool, thrown: bool)
    requires Inv(s) && s.control != Choosing(Reset) && !s.control.Ready? && !s.control.Failing? &&
             !s.control.ResumeFailed?
    ensures Leaves(s, NextControl(s, ok, thrown))
  {
    match s.control
    case Choosing(point) => ChooseLeaves(s, point, ok);
    case Preparing(point) => PrepareLeaves(s, point, ok, thrown);
    case Spawning(failed) => SpawnLeaves(s, failed, ok);
    case PauseBody(point) => PauseLeaves(s, point);
    case StopBody(point) => StopLeaves(s, point, ok);
    case _ => EntryLeaves(s, ok, thrown);
  }

  lemma BeginLeaves(s: Recorder, operation: Operation)
    requires s.control == Ready
    ensures Leaves(s, Begin(s, operation))
  {
  }

  lemma StepPublishes(s: Recorder, step: Step, start: Archive)
    requires Sound(s) && Published(s, start)
    ensures Published(Next(s, step), if Restarts(s, step) then s.log.archive else start)
  {
    match step
    case Produce(row, spurious) => ProducerPublishes(s, row, spurious, start);
    case Write(ok, due) => WriterPublishes(s, ok, due, start);
    case Command(operation) =>
      if s.control == Ready {
        BeginLeaves(s, operation);
        LeavesPublishes(s, Begin(s, operation), start);
      }
    case Act(ok, thrown) =>
      if s.control == Choosing(Reset) {
        ResetPublishes(s, ok);
      } else {
        ControlPublishes(s, ok, thrown, start);
      }
  }

  lemma AfterLast(steps: seq<Step>)
    requires steps != []
    ensures After(steps) == Next(After(steps[..|steps| - 1]), steps[|steps| - 1])
  {
    assert steps == steps[..|steps| - 1] + [steps[|steps| - 1]];
    RunSnoc(INITIAL, steps[..|steps| - 1], steps[|steps| - 1]);
  }

  lemma {:induction false} RunPublishes(steps: seq<Step>)
    ensures Published(After(steps), StartArchive(steps))
    decreases |steps|
  {
    if steps != [] {
      var init, last := steps[..|steps| - 1], steps[|steps| - 1];
      RunPublishes(init);
      EveryRunIsSound(init);
      AfterLast(steps);
      StepPublishes(After(init), last, StartArchive(init));
    }
  }

  /** When stop() returns with the recorder Idle, the session has published exactly one data
      file and one complete summary, and both say the rows accepted since start, each once and
      in order. Otherwise the recorder is in Error. */
  lemma StopPublishes(steps: seq<Step>)
    requires After(steps).control == StopBody(StopReturn)
    ensures var s := After(steps);
            && (s.state == Idle || s.state == Error)
            && (s.state == Idle ==> s.log.archive == WithReport(StartArchive(steps), s.log.accepted))
  {
    EveryRunIsSound(steps);
    RunPublishes(steps);
  }
}
