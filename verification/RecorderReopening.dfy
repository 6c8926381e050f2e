/** Exactly when the Error state leaves the gate open: resume() opened it after the writer had
    closed it for an error, and nothing has closed it since. */
module RecorderReopening {
  import opened CaptureMetadata
  import opened GateWord
  import opened RecorderProtocol
  import opened RecorderInvariant
  import opened RecorderTheorems

  /** The writer has closed the gate for an error and has yet to announce it. */
  predicate PastClose(w: Writer) { w.Erring? && !w.err.ErrorClose? }

  /** The recording has failed, or the writer is about to say so. */
  predicate Failed(s: Recorder) { s.state == Error || PastClose(s.writer) }

  /** The step of resume() that opens the gate of a recording that has failed. */
  predicate Reopens(s: Recorder, step: Step) {
    step.Act? && s.control == ResumeOpen && s.gate == SHUT && Failed(s)
  }

  /** History of a run: the gate was reopened and has not been closed since. */
  predicate Reopened(steps: seq<Step>)
    decreases |steps|
  {
    steps != [] && After(steps).gate.open &&
    (var init, last := steps[..|steps| - 1], steps[|steps| - 1];
     Reopened(init) || Reopens(After(init), last))
  }

  /** What a step does to an open gate of a failed recording. */
  predicate KeepsReopened(s: Recorder, step: Step) {
    var n := Next(s, step);
    n.gate.open ==> (Failed(n) <==> (s.gate.open && Failed(s)) || Reopens(s, step))
  }

  // What each thread's steps need of the invariant.

  predicate GateFacts(s: Recorder) {
    GateClosed(s.gate.open, s.state, s.log.ioFailed, s.producer, s.control, s.Joinable())
  }

  predicate WriterFacts(s: Recorder) {
    (s.writer.Erring? ==> Observed(s.writer.err, s.state) && s.state != Idle) && (s.writer.Closing? ==>
    s.state == Error)
  }

  predicate StartFacts(s: Recorder) {
    (s.control.Choosing? && !s.control.choice.LoadState_? ==> !s.Joinable()) &&
    (s.control.Preparing? ==> !s.Joinable()) &&
    (s.control == Preparing(OpenGate) ==> s.state == Recording)
  }

  lemma InvFacts(s: Recorder)
    requires Inv(s)
    ensures GateFacts(s) && WriterFacts(s) && StartFacts(s)
  {
  }

  /** The producer moves the state only after it has closed the gate. */
  predicate Produced(s: Recorder, n: Recorder) {
    n.writer == s.writer && (n.gate.open ==> s.gate.open && n.state == s.state)
  }

  lemma SubmitProduces(s: Recorder, row: Row, at: SubmitPoint)
    ensures Produced(s, Submit(s, row, at))
  {
  }

  lemma OverflowProduces(s: Recorder, point: OverflowPoint, spurious: bool)
    requires GateFacts(s) && s.producer == Overflowing(point)
    ensures Produced(s, Overflow(s, point, spurious))
  {
  }

  lemma ProduceKeepsReopened(s: Recorder, row: Row, spurious: bool)
    requires GateFacts(s)
    ensures KeepsReopened(s, Produce(row, spurious))
  {
    match s.producer
    case Submitting(x, at) => SubmitProduces(s, x, at);
    case Overflowing(point) => OverflowProduces(s, point, spurious);
    case _ => assert Produced(s, NextProducer(s, row, spurious));
  }

  lemma ErrorKeepsReopened(s: Recorder, ok: bool, due: bool)
    requires WriterFacts(s) && (s.writer.Erring? || s.writer.Closing?)
    ensures KeepsReopened(s, Write(ok, due))
  {
  }

  lemma FinalKeepsReopened(s: Recorder, ok: bool, due: bool)
    requires GateFacts(s) && (s.writer.Finalizing? || s.writer.PauseDrained?)
    ensures KeepsReopened(s, Write(ok, due))
  {
  }

  /** A step of the writer's loop fails nothing by itself. */
  predicate Calm(s: Recorder, n: Recorder) {
    n.gate == s.gate && n.state == s.state && !PastClose(s.writer) && !PastClose(n.writer)
  }

  lemma DrainIsCalm(s: Recorder, batch: seq<Row>, point: DrainPoint, ok: bool)
    requires s.writer == Draining(batch, point)
    ensures Calm(s, Drain(s, batch, point, ok))
  {
  }

  lemma CheckIsCalm(s: Recorder, seen: RecordingState, gateDrained: bool)
    requires s.writer == Checking(seen, gateDrained)
    ensures Calm(s, CheckDrained(s, seen, gateDrained))
  {
  }

  lemma RestIsCalm(s: Recorder, point: RestPoint, ok: bool, due: bool)
    requires s.writer == Resting(point)
    ensures Calm(s, Rest(s, point, ok, due))
  {
  }

  lemma LoopIsCalm(s: Recorder, ok: bool, due: bool)
    requires !s.writer.Erring? && !s.writer.Closing? && !s.writer.Finalizing? && !s.writer.PauseDrained?
    ensures Calm(s, NextWriter(s, ok, due))
  {
    match s.writer
    case Draining(batch, point) => DrainIsCalm(s, batch, point, ok);
    case Checking(seen, gateDrained) => CheckIsCalm(s, seen, gateDrained);
    case Resting(point) => RestIsCalm(s, point, ok, due);
    case _ =>
  }

  lemma LoopKeepsReopened(s: Recorder, ok: bool, due: bool)
    requires !s.writer.Erring? && !s.writer.Closing? && !s.writer.Finalizing? && !s.writer.PauseDrained?
    ensures KeepsReopened(s, Write(ok, due))
  {
    LoopIsCalm(s, ok, due);
  }

  lemma ChooseKeepsReopened(s: Recorder, ok: bool, thrown: bool)
    requires GateFacts(s) && StartFacts(s) && s.control.Choosing?
    ensures KeepsReopened(s, Act(ok, thrown))
  {
  }

  lemma PrepareKeepsReopened(s: Recorder, ok: bool, thrown: bool)
    requires GateFacts(s) && StartFacts(s) && s.control.Preparing?
    ensures KeepsReopened(s, Act(ok, thrown))
  {
  }

  lemma SpawnKeepsReopened(s: Recorder, ok: bool, thrown: bool)
    requires GateFacts(s) && (s.control.Spawning? || s.control.Failing?) && !s.Joinable()
    ensures KeepsReopened(s, Act(ok, thrown))
  {
  }

  lemma BodyKeepsReopened(s: Recorder, ok: bool, thrown: bool)
    requires GateFacts(s) && (s.control.PauseBody? || s.control.StopBody?)
    ensures KeepsReopened(s, Act(ok, thrown))
  {
  }

  lemma EntryKeepsReopened(s: Recorder, ok: bool, thrown: bool)
    requires GateFacts(s)
    requires s.control.PauseEntry? || s.control.StopEntry? || s.control.ResumeMark? || s.control.ResumeOpen? ||
             s.control.ResumeFailed? || s.control.Ready?
    ensures KeepsReopened(s, Act(ok, thrown))
  {
  }

  lemma ActKeepsReopened(s: Recorder, ok: bool, thrown: bool)
    requires Inv(s)
    ensures KeepsReopened(s, Act(ok, thrown))
  {
    InvFacts(s);
    if s.control.Choosing? {
      ChooseKeepsReopened(s, ok, thrown);
    } else if s.control.Preparing? {
      PrepareKeepsReopened(s, ok, thrown);
    } else if s.control.Spawning? || s.control.Failing? {
      SpawnKeepsReopened(s, ok, thrown);
    } else if s.control.PauseBody? || s.control.StopBody? {
      BodyKeepsReopened(s, ok, thrown);
    } else {
      EntryKeepsReopened(s, ok, thrown);
    }
  }

  lemma StepKeepsReopened(s: Recorder, step: Step)
    requires Inv(s)
    ensures KeepsReopened(s, step)
  {
    InvFacts(s);
    match step
    case Produce(row, spurious) => ProduceKeepsReopened(s, row, spurious);
    case Write(ok, due) =>
      if s.writer.Erring? || s.writer.Closing? {
        ErrorKeepsReopened(s, ok, due);
      } else if s.writer.Finalizing? || s.writer.PauseDrained? {
        FinalKeepsReopened(s, ok, due);
      } else {
        LoopKeepsReopened(s, ok, due);
      }
    case Command(operation) =>
    case Act(ok, thrown) => ActKeepsReopened(s, ok, thrown);
  }

  lemma {:induction false} ReopenedExactly(steps: seq<Step>)
    ensures Reopened(steps) <==> After(steps).gate.open && Failed(After(steps))
    decreases |steps|
  {
    if steps != [] {
      var init, last := steps[..|steps| - 1], steps[|steps| - 1];
      ReopenedExactly(init);
      EveryRunIsSound(init);
      StepKeepsReopened(After(init), last);
      RunSnoc(INITIAL, init, last);
      assert steps == init + [last];
    }
  }

  /** In the Error state the gate is open if and only if resume() reopened it after the failure
      and it has not been closed since. */
  lemma ErrorGateExactly(steps: seq<Step>)
    requires After(steps).state == Error
    ensures After(steps).gate.open <==> Reopened(steps)
  {
    ReopenedExactly(steps);
  }

  /** The history in terms of the run: some step reopened the gate, and it has been open ever
      since. */
  lemma {:induction false} ReopenedMeans(steps: seq<Step>)
    ensures Reopened(steps) <==>
            exists k :: 0 <= k < |steps| && Reopens(After(steps[..k]), steps[k]) && OpenSince(steps, k)
    decreases |steps|
  {
    if steps != [] {
      var init, last := steps[..|steps| - 1], |steps| - 1;
      ReopenedMeans(init);
      assert steps[..|steps|] == steps;
      if Reopened(steps) {
        if Reopened(init) {
          var k :| 0 <= k < |init| && Reopens(After(init[..k]), init[k]) && OpenSince(init, k);
          OpenLonger(steps, k);
        } else {
          assert Reopens(After(steps[..last]), steps[last]) && OpenSince(steps, last);
        }
      }
      if k :| 0 <= k < |steps| && Reopens(After(steps[..k]), steps[k]) && OpenSince(steps, k) {
        assert After(steps[..|steps|]).gate.open;
        if k < last {
          OpenLonger(steps, k);
        }
      }
    }
  }

  predicate OpenSince(steps: seq<Step>, k: nat) {
    forall j :: k < j <= |steps| ==> After(steps[..j]).gate.open
  }

  lemma OpenLonger(steps: seq<Step>, k: nat)
    requires k < |steps| - 1
    ensures var init := steps[..|steps| - 1];
            init[..k] == steps[..k] && init[k] == steps[k] &&
            (OpenSince(steps, k) <==> OpenSince(init, k) && After(steps).gate.open)
  {
    var init := steps[..|steps| - 1];
    assert forall j :: 0 <= j <= |init| ==> init[..j] == steps[..j];
    assert steps[..|steps|] == steps;
    if OpenSince(steps, k) {
      assert After(steps[..|steps|]).gate.open;
      forall j | k < j <= |init|
        ensures After(init[..j]).gate.open
      {
        assert After(steps[..j]).gate.open;
      }
    }
    if OpenSince(init, k) && After(steps).gate.open {
      forall j | k < j <= |steps|
        ensures After(steps[..j]).gate.open
      {
        if j <= |init| {
          assert After(init[..j]).gate.open;
        }
      }
    }
  }
}
