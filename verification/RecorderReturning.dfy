/** pause() and stop() return: in any interleaving without a failing file operation, once the
    live submission has had its few steps and the writer enough of its own, what the operation
    waits for has happened. */
module RecorderReturning {
  import opened CaptureMetadata
  import opened RecorderProtocol
  import opened RecorderInvariant
  import opened RecorderTheorems

  /** pause() waits for Paused or for the end of the writer, stop() for the end of the writer. */
  predicate Waits(c: Control) { c == PauseBody(AwaitPaused) || c == StopBody(AwaitDone) }

  predicate CanGoOn(s: Recorder) {
    s.writerDone || (s.control == PauseBody(AwaitPaused) && s.state == Paused)
  }

  /** A step that is not a failing file operation of the writer. */
  predicate Calm(step: Step) { step.Write? ==> step.ok }

  predicate AllCalm(steps: seq<Step>) { forall step <- steps :: Calm(step) }

  /** A recorder without a writer thread has said that the writer is done. */
  predicate WriterKnown(s: Recorder) { s.writer.NoWriter? ==> Launching(s.control) || s.writerDone }

  /** A step of the writer neither ends its thread nor moves the others. */
  predicate Alone(s: Recorder, n: Recorder) {
    !n.writer.NoWriter? && n.control == s.control && n.producer == s.producer
  }

  lemma DrainAlone(s: Recorder, batch: seq<Row>, point: DrainPoint, ok: bool)
    requires s.writer == Draining(batch, point)
    ensures Alone(s, Drain(s, batch, point, ok))
  {
  }

  lemma CheckAlone(s: Recorder, seen: RecordingState, gateDrained: bool)
    ensures Alone(s, CheckDrained(s, seen, gateDrained))
  {
  }

  lemma PauseAlone(s: Recorder, flushed: bool, ok: bool)
    ensures Alone(s, CompletePause(s, flushed, ok))
  {
  }

  lemma FinalAlone(s: Recorder, point: FinalPoint, ok: bool)
    ensures Alone(s, Finalize(s, point, ok))
  {
  }

  lemma RestAlone(s: Recorder, point: RestPoint, ok: bool, due: bool)
    requires s.writer == Resting(point)
    ensures Alone(s, Rest(s, point, ok, due))
  {
  }

  lemma ErrorAlone(s: Recorder, point: ErrorPoint, next: ClosePoint, ok: bool)
    ensures Alone(s, WriterError(s, point, next, ok))
  {
  }

  lemma CloseAlone(s: Recorder, point: ClosePoint, ok: bool)
    ensures Alone(s, CloseFile(s, point, ok))
  {
  }

  lemma WriterAlone(s: Recorder, ok: bool, due: bool)
    requires !s.writer.NoWriter?
    ensures Alone(s, NextWriter(s, ok, due))
  {
    match s.writer
    case Draining(batch, point) => DrainAlone(s, batch, point, ok);
    case Checking(seen, gateDrained) => CheckAlone(s, seen, gateDrained);
    case PauseDrained(flushed) => PauseAlone(s, flushed, ok);
    case Finalizing(point) => FinalAlone(s, point, ok);
    case Resting(point) => RestAlone(s, point, ok, due);
    case Erring(point, next) => ErrorAlone(s, point, next, ok);
    case Closing(point) => CloseAlone(s, point, ok);
    case _ =>
  }

  lemma WriterStaysKnown(s: Recorder, ok: bool, due: bool)
    requires WriterKnown(s)
    ensures WriterKnown(NextWriter(s, ok, due))
  {
    if !s.writer.NoWriter? {
      WriterAlone(s, ok, due);
    }
  }

  /** stop() joins a writer that has said it is done. */
  lemma StopStaysKnown(s: Recorder, point: StopPoint, ok: bool)
    requires Inv(s) && WriterKnown(s) && s.control == StopBody(point)
    ensures WriterKnown(StopStep(s, point, ok))
  {
  }

  lemma StartStaysKnown(s: Recorder, ok: bool, thrown: bool)
    requires WriterKnown(s)
    ensures s.control.Choosing? ==> WriterKnown(Choose(s, s.control.choice, ok))
    ensures s.control.Preparing? ==> WriterKnown(Prepare(s, s.control.prepare, ok, thrown))
    ensures s.control.Spawning? ==> WriterKnown(Spawn(s, s.control.failed, ok))
    ensures s.control.Failing? ==> WriterKnown(Fail(s, s.control.fail, ok))
  {
  }

  lemma ControlStaysKnown(s: Recorder, ok: bool, thrown: bool)
    requires Inv(s) && WriterKnown(s)
    ensures WriterKnown(NextControl(s, ok, thrown))
  {
    match s.control
    case StopBody(point) => StopStaysKnown(s, point, ok);
    case PauseBody(point) =>
    case PauseEntry(closing) =>
    case StopEntry(closing) =>
    case ResumeMark =>
    case _ => StartStaysKnown(s, ok, thrown);
  }

  lemma ProducerStaysKnown(s: Recorder, row: Row, spurious: bool)
    requires WriterKnown(s)
    ensures WriterKnown(NextProducer(s, row, spurious))
  {
  }

  lemma StepStaysKnown(s: Recorder, step: Step)
    requires Inv(s) && WriterKnown(s)
    ensures WriterKnown(Next(s, step))
  {
    match step
    case Produce(row, spurious) => ProducerStaysKnown(s, row, spurious);
    case Write(ok, due) => WriterStaysKnown(s, ok, due);
    case Command(operation) =>
    case Act(ok, thrown) => ControlStaysKnown(s, ok, thrown);
  }

  lemma {:induction false} RunStaysKnown(s: Recorder, steps: seq<Step>)
    requires Inv(s) && WriterKnown(s)
    ensures WriterKnown(Run(s, steps))
    decreases |steps|
  {
    if steps != [] {
      StepKeepsInv(s, steps[0]);
      StepStaysKnown(s, steps[0]);
      RunStaysKnown(Next(s, steps[0]), steps[1..]);
    }
  }

  /** A state in which the operation has to wait. */
  predicate Waiting(s: Recorder) { Inv(s) && WriterKnown(s) && Waits(s.control) && !CanGoOn(s) }

  /** What the invariant says about it. */
  predicate Awaited(s: Recorder) {
    && !s.gate.open && !s.writer.NoWriter? && !s.writer.Exited?
    && (s.state == Pausing || s.state == Stopping || s.state == Error || (s.state == Idle && s.writer.Announcing?))
    && (s.state == Idle ==> !Holds(s.producer))
    && (s.writer.PauseDrained? || s.writer.Finalizing? ==> !Holds(s.producer))
    && (s.writer.PauseDrained? ==> s.control == PauseBody(AwaitPaused))
    && (s.writer.Draining? && s.writer.drain.Take? ==> s.queue != [])
    && (s.writer.Erring? ==> Observed(s.writer.err, s.state))
    && (s.writer.Checking? ==> s.writer.seen in {Pausing, Stopping, Error})
  }

  lemma WaitingIsAwaited(s: Recorder)
    requires Waiting(s)
    ensures Awaited(s) && s.gate.live == (if Holds(s.producer) then 1 else 0)
  {
  }

  lemma ControlWaits(s: Recorder, step: Step)
    requires Waits(s.control) && !CanGoOn(s)
    ensures Next(s, step).control == s.control
    ensures step.Act? || step.Command? ==> Next(s, step) == s
  {
    match step
    case Produce(row, spurious) => ProducerAwaits(s, row, spurious);
    case Write(ok, due) => if !s.writer.NoWriter? { WriterAlone(s, ok, due); }
    case _ =>
  }

  lemma ProducerAwaits(s: Recorder, row: Row, spurious: bool)
    ensures NextProducer(s, row, spurious).control == s.control
  {
  }

  lemma StepWaits(s: Recorder, step: Step)
    requires Waiting(s)
    ensures CanGoOn(Next(s, step)) || (Waiting(Next(s, step)) && Next(s, step).control == s.control)
  {
    StepKeepsInv(s, step);
    StepStaysKnown(s, step);
    ControlWaits(s, step);
  }

  // The live submission leaves.

  /** Steps it takes at most; the state can move under its compare-and-swap once, to Error. */
  function SubmitRank(p: Producer, st: RecordingState): nat {
    match p
    case Submitting(_, Admitted) => 8
    case Submitting(_, Publishing) => 3
    case Submitting(_, Counting) => 2
    case Submitting(_, Leaving) => 1
    case Overflowing(FirstClose) => 7
    case Overflowing(SecondClose) => 6
    case Overflowing(SetFlag) => 5
    case Overflowing(LoadState) => 4
    case Overflowing(CasState(seen)) => if seen == st || seen == Error || seen == Idle then 2 else 3
    case Overflowing(LeaveFull) => 1
    case _ => 0
  }

  function ToLeave(p: Producer, st: RecordingState): nat {
    if Holds(p) then SubmitRank(p, st) + (if st == Error then 0 else 2) else 0
  }

  /** What is queued or about to be. */
  function Incoming(p: Producer, queue: seq<Row>): nat {
    |queue| + if p.Submitting? && (p.at.Admitted? || p.at.Publishing?) then 1 else 0
  }

  lemma SubmitLeaves(s: Recorder, x: Row, at: SubmitPoint)
    requires s.producer == Submitting(x, at)
    ensures var n := Submit(s, x, at);
            ToLeave(n.producer, n.state) < ToLeave(s.producer, s.state) &&
            Incoming(n.producer, n.queue) <= Incoming(s.producer, s.queue)
  {
  }

  lemma OverflowLeaves(s: Recorder, point: OverflowPoint, spurious: bool)
    requires s.producer == Overflowing(point)
    ensures var n := Overflow(s, point, spurious);
            ToLeave(n.producer, n.state) <= ToLeave(s.producer, s.state) - (if spurious then 0 else 1) &&
            Incoming(n.producer, n.queue) <= Incoming(s.producer, s.queue)
  {
  }

  /** A closed gate admits nobody. */
  lemma OutsideStays(s: Recorder, row: Row, spurious: bool)
    requires !s.gate.open && !Holds(s.producer)
    ensures var n := NextProducer(s, row, spurious);
            !Holds(n.producer) && n.queue == s.queue && n.state == s.state && n.gate == s.gate && n.writer == s.writer
  {
  }

  lemma ProducerLeaves(s: Recorder, row: Row, spurious: bool)
    requires Awaited(s)
    ensures var n := NextProducer(s, row, spurious);
            ToLeave(n.producer, n.state) <=
              (if ToLeave(s.producer, s.state) == 0 || spurious then ToLeave(s.producer, s.state)
               else ToLeave(s.producer, s.state) - 1) &&
            Incoming(n.producer, n.queue) <= Incoming(s.producer, s.queue)
  {
    match s.producer
    case Submitting(x, at) => SubmitLeaves(s, x, at);
    case Overflowing(point) => OverflowLeaves(s, point, spurious);
    case _ => OutsideStays(s, row, spurious);
  }

  /** The writer moves the state of a live submission to Error at most. */
  lemma StateMoves(s: Recorder, due: bool)
    requires Awaited(s) && Holds(s.producer)
    ensures var n := NextWriter(s, true, due); n.state == s.state || n.state == Error
  {
  }

  lemma WriterLetsLeave(s: Recorder, due: bool)
    requires Awaited(s)
    ensures var n := NextWriter(s, true, due);
            ToLeave(n.producer, n.state) <= ToLeave(s.producer, s.state) &&
            Incoming(n.producer, n.queue) <= Incoming(s.producer, s.queue)
  {
    WriterAlone(s, true, due);
    WriterLeaves(s, true, due);
    if Holds(s.producer) {
      StateMoves(s, due);
    }
  }

  // The writer arrives.

  /** Steps to the next row, when one is queued. */
  function RowRank(w: Writer): nat {
    match w
    case Draining(batch, Check) => if |batch| < BATCH_SIZE then 1 else 9
    case Draining(_, Emit) => 8
    case Tallying(_) => 7
    case Observing => 6
    case Checking(_, gateDrained) => if gateDrained then 4 else 5
    case Resting(TimedFlush) => 3
    case Resting(_) => 2
    case _ => 0
  }

  /** Steps to the end of the loop, when nothing is queued. */
  function LoopRank(w: Writer): nat {
    match w
    case Resting(TimedFlush) => 17
    case Resting(_) => 16
    case Draining(_, Check) => 15
    case Draining(_, Emit) => 14
    case Tallying(_) => 13
    case Observing => 12
    case Checking(_, gateDrained) => if gateDrained then 10 else 11
    case _ => 0
  }

  function FinalRank(point: FinalPoint): nat {
    match point
    case StopFlush => 9
    case StopClose => 8
    case Promote => 7
    case CreateMetadata => 6
    case LoadAccepted => 5
    case LoadWritten(_) => 4
    case FinishMetadata(_, _) => 3
    case CommitIdle => 2
  }

  function CloseRank(point: ClosePoint): nat {
    match point
    case CloseFlush => 4
    case CloseClose => 3
    case CloseDrop => 2
  }

  function ErrorRank(point: ErrorPoint, st: RecordingState): nat {
    (match point
     case ErrorClose => 8
     case ErrorLoad => 7
     case ErrorCas(seen) => if seen == st || seen == Error then 5 else 6) +
    (if st == Error then 0 else 2)
  }

  /** Steps the writer takes at most until pause() or stop() can go on. */
  function Left(w: Writer, queue: seq<Row>, st: RecordingState): nat {
    match w
    case Announcing => 1
    case Closing(point) => CloseRank(point)
    case Finalizing(point) => FinalRank(point)
    case PauseDrained(flushed) => if flushed then 5 else 6
    case Erring(point, _) => ErrorRank(point, st)
    case Draining(batch, Tear(_)) => 20 + |batch|
    case NoWriter => 0
    case Exited => 0
    case _ => if queue == [] then LoopRank(w) else 20 + 10 * |queue| + RowRank(w)
  }

  /** The writer is one step nearer. */
  predicate Nearer(s: Recorder, n: Recorder) {
    CanGoOn(n) || Left(n.writer, n.queue, n.state) < Left(s.writer, s.queue, s.state)
  }

  lemma DrainArrives(s: Recorder, batch: seq<Row>, point: DrainPoint)
    requires Awaited(s) && s.writer == Draining(batch, point)
    ensures Nearer(s, Drain(s, batch, point, true))
  {
  }

  lemma CheckArrives(s: Recorder, seen: RecordingState, gateDrained: bool)
    requires Awaited(s) && s.gate.live == 0 && s.writer == Checking(seen, gateDrained)
    ensures Nearer(s, CheckDrained(s, seen, gateDrained))
  {
  }

  lemma PauseArrives(s: Recorder, flushed: bool)
    requires Awaited(s) && s.writer == PauseDrained(flushed)
    ensures Nearer(s, CompletePause(s, flushed, true))
  {
  }

  lemma FinalArrives(s: Recorder, point: FinalPoint)
    requires s.writer == Finalizing(point)
    ensures Nearer(s, Finalize(s, point, true))
  {
  }

  lemma RestArrives(s: Recorder, point: RestPoint, due: bool)
    requires Awaited(s) && s.writer == Resting(point)
    ensures Nearer(s, Rest(s, point, true, due))
  {
  }

  lemma ErrorArrives(s: Recorder, point: ErrorPoint, next: ClosePoint)
    requires Awaited(s) && s.writer == Erring(point, next)
    ensures Nearer(s, WriterError(s, point, next, true))
  {
  }

  lemma CloseArrives(s: Recorder, point: ClosePoint)
    requires s.writer == Closing(point)
    ensures Nearer(s, CloseFile(s, point, true))
  {
  }

  lemma PassingArrives(s: Recorder, due: bool)
    requires Awaited(s) && (s.writer.Tallying? || s.writer.Observing? || s.writer.Announcing?)
    ensures Nearer(s, NextWriter(s, true, due))
  {
  }

  lemma WriterArrives(s: Recorder, due: bool)
    requires Awaited(s) && s.gate.live == 0
    ensures Nearer(s, NextWriter(s, true, due))
  {
    match s.writer
    case Draining(batch, point) => DrainArrives(s, batch, point);
    case Checking(seen, gateDrained) => CheckArrives(s, seen, gateDrained);
    case PauseDrained(flushed) => PauseArrives(s, flushed);
    case Finalizing(point) => FinalArrives(s, point);
    case Resting(point) => RestArrives(s, point, due);
    case Erring(point, next) => ErrorArrives(s, point, next);
    case Closing(point) => CloseArrives(s, point);
    case _ => PassingArrives(s, due);
  }

  // Whole runs.

  /** At some point of the run the operation can go on. */
  predicate GoesOn(s: Recorder, steps: seq<Step>)
    decreases |steps|
  {
    CanGoOn(s) || (steps != [] && GoesOn(Next(s, steps[0]), steps[1..]))
  }

  function ProducerStep(step: Step): nat { if step.Produce? && !step.spurious then 1 else 0 }

  function WriterStep(step: Step): nat { if step.Write? then 1 else 0 }

  function ProducerSteps(steps: seq<Step>): nat {
    if steps == [] then 0 else ProducerStep(steps[0]) + ProducerSteps(steps[1..])
  }

  function WriterSteps(steps: seq<Step>): nat {
    if steps == [] then 0 else WriterStep(steps[0]) + WriterSteps(steps[1..])
  }

  /** How far the submission still is from the gate after so many of its steps. */
  predicate OnTheWay(s: Recorder, left: int, incoming: nat) {
    && (ToLeave(s.producer, s.state) == 0 || ToLeave(s.producer, s.state) <= left)
    && Incoming(s.producer, s.queue) <= incoming
  }

  lemma StepLeaves(s: Recorder, step: Step, left: int, incoming: nat)
    requires Waiting(s) && Calm(step) && OnTheWay(s, left, incoming)
    ensures OnTheWay(Next(s, step), left - ProducerStep(step), incoming)
  {
    WaitingIsAwaited(s);
    match step
    case Produce(row, spurious) => ProducerLeaves(s, row, spurious);
    case Write(ok, due) => WriterLetsLeave(s, due);
    case _ => ControlWaits(s, step);
  }

  predicate Leaving(s: Recorder, left: int, incoming: nat) { Waiting(s) && OnTheWay(s, left, incoming) }

  lemma StepGoes(s: Recorder, step: Step, left: int, incoming: nat)
    requires Leaving(s, left, incoming) && Calm(step)
    ensures CanGoOn(Next(s, step)) || Leaving(Next(s, step), left - ProducerStep(step), incoming)
  {
    StepWaits(s, step);
    StepLeaves(s, step, left, incoming);
  }

  lemma CalmTail(steps: seq<Step>)
    requires steps != [] && AllCalm(steps)
    ensures Calm(steps[0]) && AllCalm(steps[1..])
  {
    assert steps[0] in steps && forall step <- steps[1..] :: step in steps;
  }

  lemma {:induction false} RunLeaves(s: Recorder, steps: seq<Step>, left: int, incoming: nat)
    requires CanGoOn(s) || Leaving(s, left, incoming)
    requires AllCalm(steps)
    ensures GoesOn(s, steps) || Leaving(Run(s, steps), left - ProducerSteps(steps), incoming)
    decreases |steps|
  {
    if steps != [] && !CanGoOn(s) {
      var step, rest := steps[0], steps[1..];
      var n, fewer := Next(s, step), left - ProducerStep(step);
      CalmTail(steps);
      StepGoes(s, step, left, incoming);
      RunLeaves(n, rest, fewer, incoming);
      assert ProducerSteps(steps) == ProducerStep(step) + ProducerSteps(rest);
      assert Run(s, steps) == Run(n, rest);
      assert GoesOn(n, rest) ==> GoesOn(s, steps);
    }
  }

  /** With no submission inside, other threads leave the writer where it is. */
  lemma OthersLeaveWriter(s: Recorder, step: Step)
    requires Waiting(s) && !Holds(s.producer) && !step.Write?
    ensures var n := Next(s, step);
            n.writer == s.writer && n.queue == s.queue && n.state == s.state && !Holds(n.producer)
  {
    WaitingIsAwaited(s);
    match step
    case Produce(row, spurious) => OutsideStays(s, row, spurious);
    case _ => ControlWaits(s, step);
  }

  lemma StepArrives(s: Recorder, step: Step, left: int)
    requires Waiting(s) && Calm(step) && !Holds(s.producer) && Left(s.writer, s.queue, s.state) <= left
    ensures var n := Next(s, step);
            CanGoOn(n) ||
            (!Holds(n.producer) && Left(n.writer, n.queue, n.state) <= left - WriterStep(step))
  {
    WaitingIsAwaited(s);
    if step.Write? {
      WriterArrives(s, step.due);
      WriterAlone(s, true, step.due);
    } else {
      OthersLeaveWriter(s, step);
    }
  }

  lemma {:induction false} RunArrives(s: Recorder, steps: seq<Step>, left: int)
    requires Waiting(s) && AllCalm(steps) && !Holds(s.producer) && Left(s.writer, s.queue, s.state) <= left
    ensures GoesOn(s, steps) || WriterSteps(steps) <= left
    decreases |steps|
  {
    if steps != [] {
      var n := Next(s, steps[0]);
      CalmTail(steps);
      StepWaits(s, steps[0]);
      StepArrives(s, steps[0], left);
      if !CanGoOn(n) {
        RunArrives(n, steps[1..], left - WriterStep(steps[0]));
      }
    }
  }

  lemma {:induction false} GoesOnLater(s: Recorder, a: seq<Step>, b: seq<Step>)
    ensures GoesOn(s, a) || GoesOn(Run(s, a), b) ==> GoesOn(s, a + b)
    decreases |a|
  {
    if a == [] {
      assert a + b == b;
    } else {
      assert (a + b)[1..] == a[1..] + b;
      GoesOnLater(Next(s, a[0]), a[1..], b);
    }
  }

  /** The writer steps that are enough when so many rows are queued or about to be. */
  function Enough(incoming: nat): nat { 10 * incoming + 20 + BATCH_SIZE }

  lemma LeftIsBounded(s: Recorder, incoming: nat)
    requires Inv(s) && Incoming(s.producer, s.queue) <= incoming
    ensures Left(s.writer, s.queue, s.state) <= Enough(incoming)
  {
  }

  lemma TenAreEnough(s: Recorder)
    ensures OnTheWay(s, 10, |s.queue| + 1)
  {
  }

  lemma NoneLeft(s: Recorder, left: int, incoming: nat)
    requires OnTheWay(s, left, incoming) && left <= 0
    ensures !Holds(s.producer) && Incoming(s.producer, s.queue) <= incoming
  {
  }

  lemma WriterReturns(s: Recorder, steps: seq<Step>, incoming: nat)
    requires Waiting(s) && AllCalm(steps) && !Holds(s.producer) && Incoming(s.producer, s.queue) <= incoming
    requires WriterSteps(steps) > Enough(incoming)
    ensures GoesOn(s, steps)
  {
    LeftIsBounded(s, incoming);
    RunArrives(s, steps, Enough(incoming));
  }

  lemma LeftReturns(s: Recorder, steps: seq<Step>, left: int, incoming: nat)
    requires Leaving(s, left, incoming) && left <= 0 && AllCalm(steps)
    requires WriterSteps(steps) > Enough(incoming)
    ensures GoesOn(s, steps)
  {
    NoneLeft(s, left, incoming);
    WriterReturns(s, steps, incoming);
  }

  lemma WaitingReturns(s: Recorder, a: seq<Step>, b: seq<Step>)
    requires Waiting(s) && AllCalm(a) && AllCalm(b)
    requires ProducerSteps(a) >= 10 && WriterSteps(b) > Enough(|s.queue| + 1)
    ensures GoesOn(s, a) || GoesOn(Run(s, a), b)
  {
    TenAreEnough(s);
    RunLeaves(s, a, 10, |s.queue| + 1);
    if !GoesOn(s, a) {
      LeftReturns(Run(s, a), b, 10 - ProducerSteps(a), |s.queue| + 1);
    }
  }

  lemma ReachableIsKnown(steps: seq<Step>)
    ensures Inv(After(steps)) && WriterKnown(After(steps))
  {
    EveryRunIsSound(steps);
    InitialInv(INITIAL);
    RunStaysKnown(INITIAL, steps);
  }

  /** pause() and stop() return. In any interleaving of all threads in which no file operation
      fails, after ten steps of the producer that are not spurious failures, and after them ten
      steps of the writer for each row queued and a constant number more, what the waiting
      operation waits for has happened. */
  lemma OperationReturns(before: seq<Step>, a: seq<Step>, b: seq<Step>)
    requires Waits(After(before).control) && AllCalm(a) && AllCalm(b)
    requires ProducerSteps(a) >= 10 && WriterSteps(b) > Enough(|After(before).queue| + 1)
    ensures GoesOn(After(before), a + b)
  {
    ReachableIsKnown(before);
    if !CanGoOn(After(before)) {
      WaitingReturns(After(before), a, b);
    }
    GoesOnLater(After(before), a, b);
  }

  /** And then it returns in its own next steps: pause() with Paused or Error, stop() with Idle
      or Error. */
  lemma GoingOnReturns(steps: seq<Step>, ok: bool, thrown: bool)
    requires Waits(After(steps).control) && CanGoOn(After(steps))
    ensures var n := NextControl(NextControl(After(steps), ok, thrown), ok, thrown);
            if After(steps).control.PauseBody?
            then n.control == Ready && n.state in {Paused, Error}
            else n.control == StopBody(StopReturn) && n.state in {Idle, Error} && !n.Joinable()
  {
    EveryRunIsSound(steps);
    GoesOnReturns(After(steps), ok, thrown);
  }

  lemma GoesOnReturns(s: Recorder, ok: bool, thrown: bool)
    requires Inv(s) && Waits(s.control) && CanGoOn(s)
    ensures var n := NextControl(NextControl(s, ok, thrown), ok, thrown);
            if s.control.PauseBody?
            then n.control == Ready && n.state in {Paused, Error}
            else n.control == StopBody(StopReturn) && n.state in {Idle, Error} && !n.Joinable()
  {
  }
}
