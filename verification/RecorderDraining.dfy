/** The drain can always go on: while rows or a submission are left and no write has failed,
    a few steps of the producer and the writer make progress, and so they drain everything. */
module RecorderDraining {
  import opened CaptureMetadata
  import opened RecorderProtocol
  import opened RecorderInvariant
  import opened RecorderTheorems

  /** A writer exists, and no write has failed or is failing. */
  predicate Working(s: Recorder) {
    (s.state == Recording || s.state == Pausing || s.state == Stopping || s.state == Error) &&
    !s.log.ioFailed && s.Joinable() && !(s.writer.Draining? && s.writer.drain.Tear?)
  }

  /** And a drain is wanted. */
  predicate Healthy(s: Recorder) { Working(s) && s.state != Recording }

  /** Writer steps until it takes a row from a queue that is not empty. */
  function Distance(w: Writer): nat {
    match w
    case Draining(batch, Check) => if |batch| < BATCH_SIZE then 1 else 9
    case Draining(_, Emit) => 8
    case Tallying(_) => 7
    case Observing => 6
    case Checking(_, gateDrained) => if gateDrained then 4 else 5
    case Resting(TimedFlush) => 3
    case Resting(_) => 2
    case _ => 0
  }

  const GO := Write(true, false)

  /** Steps of the producer and the writer in which nothing fails. */
  predicate Smooth(steps: seq<Step>) {
    forall step <- steps :: step == GO || (step.Produce? && !step.spurious)
  }

  lemma HealthyIsShut(s: Recorder)
    requires Inv(s) && Healthy(s)
    ensures !s.gate.open
  {
  }

  predicate InLoop(w: Writer) {
    w.Draining? || w.Tallying? || w.Observing? || w.Checking? || w.Resting?
  }

  /** With rows queued the writer is in its loop. */
  lemma RowsKeepLooping(s: Recorder)
    requires Inv(s) && Working(s) && s.queue != []
    ensures InLoop(s.writer) && s.state != Paused
    ensures s.writer.Checking? ==> s.writer.seen in {Pausing, Stopping, Error}
  {
  }

  lemma DrainApproaches(s: Recorder, batch: seq<Row>, point: DrainPoint)
    requires Working(s) && s.queue != [] && s.writer == Draining(batch, point) && !point.Take?
    ensures var n := Drain(s, batch, point, true);
            Working(n) && n.queue == s.queue && n.producer == s.producer && n.state == s.state &&
            Distance(n.writer) < Distance(s.writer)
  {
  }

  lemma RestApproaches(s: Recorder)
    requires Working(s) && s.queue != [] && InLoop(s.writer) && !s.writer.Draining?
    ensures var n := NextWriter(s, true, false);
            Working(n) && n.queue == s.queue && n.producer == s.producer && n.state == s.state &&
            Distance(n.writer) < Distance(s.writer)
  {
  }

  lemma TakeIsProgress(s: Recorder, batch: seq<Row>)
    requires Working(s) && s.queue != [] && s.writer == Draining(batch, Take)
    ensures Progress(s, GO) && Working(Next(s, GO)) && Next(s, GO).state == s.state
  {
  }

  /** The live submission's next step makes progress, or the one after it does. */
  lemma ProducerProgresses(s: Recorder, row: Row)
    requires Healthy(s) && Holds(s.producer)
    ensures var step := Produce(row, false);
            var n := Next(s, step);
            Healthy(n) && (Progress(s, step) || (Holds(n.producer) && Progress(n, step) && Healthy(Next(n, step))))
  {
    if s.producer.Overflowing? {
      OverflowProgresses(s, s.producer.overflow, row);
    } else {
      SubmitProgresses(s, s.producer.row, s.producer.at, row);
    }
  }

  lemma SubmitProgresses(s: Recorder, x: Row, at: SubmitPoint, row: Row)
    requires Healthy(s) && s.producer == Submitting(x, at)
    ensures Progress(s, Produce(row, false)) && Healthy(Next(s, Produce(row, false)))
  {
  }

  lemma OverflowProgresses(s: Recorder, point: OverflowPoint, row: Row)
    requires Healthy(s) && s.producer == Overflowing(point)
    ensures var step := Produce(row, false);
            var n := Next(s, step);
            Healthy(n) && (Progress(s, step) || (Holds(n.producer) && Progress(n, step) && Healthy(Next(n, step))))
  {
  }

  lemma CountOne(s: Recorder, step: Step)
    requires Progress(s, step)
    ensures ProgressCount(s, [step]) == 1 && Run(s, [step]) == Next(s, step)
  {
    assert [step][1..] == [];
  }

  lemma CountCons(s: Recorder, step: Step, steps: seq<Step>)
    ensures ProgressCount(s, [step] + steps) >= ProgressCount(Next(s, step), steps)
    ensures Run(s, [step] + steps) == Run(Next(s, step), steps)
  {
    assert ([step] + steps)[1..] == steps;
  }

  /** The writer reaches the next row, while recording as well as while draining. */
  lemma {:induction false} WriterProgresses(s: Recorder) returns (steps: seq<Step>)
    requires Inv(s) && Working(s) && s.queue != []
    ensures Smooth(steps) && |steps| <= Distance(s.writer) + 1
    ensures ProgressCount(s, steps) >= 1 && Inv(Run(s, steps)) && Working(Run(s, steps)) &&
            Run(s, steps).state == s.state
    decreases Distance(s.writer)
  {
    RowsKeepLooping(s);
    StepKeepsInv(s, GO);
    if s.writer.Draining? && s.writer.drain.Take? {
      TakeIsProgress(s, s.writer.batch);
      CountOne(s, GO);
      return [GO];
    }
    if s.writer.Draining? {
      DrainApproaches(s, s.writer.batch, s.writer.drain);
    } else {
      RestApproaches(s);
    }
    var rest := WriterProgresses(Next(s, GO));
    CountCons(s, GO, rest);
    steps := [GO] + rest;
  }

  /** As long as anything is left to drain, at most ten steps make progress. */
  lemma ProgressAvailable(s: Recorder, row: Row) returns (steps: seq<Step>)
    requires Inv(s) && Healthy(s) && Backlog(s) > 0
    ensures Smooth(steps) && |steps| <= 10 && ProgressCount(s, steps) >= 1
    ensures Inv(Run(s, steps)) && Healthy(Run(s, steps))
  {
    if Holds(s.producer) {
      var step := Produce(row, false);
      ProducerProgresses(s, row);
      StepKeepsInv(s, step);
      if Progress(s, step) {
        CountOne(s, step);
        return [step];
      }
      StepKeepsInv(Next(s, step), step);
      CountOne(Next(s, step), step);
      CountCons(s, step, [step]);
      return [step] + [step];
    }
    steps := WriterProgresses(s);
  }

  /** Smooth steps keep the gate of a healthy recording shut, so progress lowers the backlog. */
  lemma {:induction false} ProgressCounts(s: Recorder, steps: seq<Step>)
    requires Inv(s) && !s.gate.open && Smooth(steps)
    ensures Backlog(Run(s, steps)) + ProgressCount(s, steps) <= Backlog(s)
    decreases |steps|
  {
    if steps != [] {
      assert steps[0] in steps && Smooth(steps[1..]);
      SmoothStaysShut(s, steps[0]);
      StepKeepsInv(s, steps[0]);
      BacklogStep(s, steps[0]);
      ProgressCounts(Next(s, steps[0]), steps[1..]);
    }
  }

  lemma SmoothStaysShut(s: Recorder, step: Step)
    requires !s.gate.open && (step == GO || step.Produce?)
    ensures !Next(s, step).gate.open
  {
    match step
    case Write(ok, due) => WriterLeaves(s, ok, due);
    case Produce(row, spurious) =>
  }

  lemma {:induction false} RunConcat(s: Recorder, a: seq<Step>, b: seq<Step>)
    ensures Run(s, a + b) == Run(Run(s, a), b)
    decreases |a|
  {
    if a == [] {
      assert a + b == b;
    } else {
      assert (a + b)[1..] == a[1..] + b;
      RunConcat(Next(s, a[0]), a[1..], b);
    }
  }

  /** So the drain completes: from any state that waits for it, at most ten steps for every unit
      of backlog leave no submission live and no row queued. */
  lemma {:induction false} DrainCompletes(s: Recorder, row: Row) returns (steps: seq<Step>)
    requires Inv(s) && Healthy(s)
    ensures Smooth(steps) && |steps| <= 10 * Backlog(s) && Quiet(Run(s, steps))
    decreases Backlog(s)
  {
    HealthyIsShut(s);
    if Backlog(s) == 0 {
      DrainEnds(s, []);
      return [];
    }
    var first := ProgressAvailable(s, row);
    ProgressCounts(s, first);
    var rest := DrainCompletes(Run(s, first), row);
    RunConcat(s, first, rest);
    steps := first + rest;
  }

  /** While recording goes on without a failure and rows are queued, at most ten steps of the
      writer take the next one. */
  lemma RecordingTakesRows(before: seq<Step>) returns (steps: seq<Step>)
    requires var s := After(before); s.state == Recording && Working(s) && s.queue != []
    ensures Smooth(steps) && |steps| <= 10 && ProgressCount(After(before), steps) >= 1
    ensures Run(After(before), steps).state == Recording
  {
    EveryRunIsSound(before);
    steps := WriterProgresses(After(before));
  }
}
