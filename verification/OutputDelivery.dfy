/** What the output writer owes to every event it takes from the session: while no write has
    failed, the frames written are those of the events in the order they were taken. */
module OutputDelivery {
  import opened OutputProtocol

  /** An event at the test of its lease, with the leases that were valid then. */
  datatype LeaseTest = LeaseTest(event: Event, valid: set<nat>)

  /** The event a step takes from the queue. */
  function Takes(s: System, step: Step): seq<Event> {
    if step.WriterStep? && s.writer.Read? && s.sink.queue != [] then [s.sink.queue[0]] else []
  }

  /** The test a step makes. */
  function Makes(s: System, step: Step): seq<LeaseTest> {
    if step.WriterStep? && s.writer.CommitState? then [LeaseTest(s.writer.event, s.sink.valid)] else []
  }

  /** History: the events the writer has taken from the queue. */
  function Popped(steps: seq<Step>): seq<Event> {
    if steps == [] then []
    else Popped(steps[..|steps| - 1]) + Takes(Run(steps[..|steps| - 1]), steps[|steps| - 1])
  }

  /** History: the tests of the events it has taken. */
  function Tests(steps: seq<Step>): seq<LeaseTest> {
    if steps == [] then []
    else Tests(steps[..|steps| - 1]) + Makes(Run(steps[..|steps| - 1]), steps[|steps| - 1])
  }

  function EventsOf(tests: seq<LeaseTest>): seq<Event> {
    if tests == [] then [] else EventsOf(tests[..|tests| - 1]) + [tests[|tests| - 1].event]
  }

  /** The progress frame of an event, if it has one. */
  function Last(e: Event): seq<Frame> { if e.kind == Recording && e.progress then [Progress(e.id)] else [] }

  /** The frames of one event: its state, if it serialises and is not a measurement without a
      valid lease, and the progress of a recording. */
  function FramesAt(t: LeaseTest): seq<Frame> {
    var e := t.event;
    (if e.serializes && (e.kind != Measurement || e.lease in t.valid) then [State(e.id)] else []) + Last(e)
  }

  function FramesAtAll(tests: seq<LeaseTest>): seq<Frame> {
    if tests == [] then [] else FramesAtAll(tests[..|tests| - 1]) + FramesAt(tests[|tests| - 1])
  }

  /** What has passed its test and is still to be written. */
  function ToWrite(w: Writer): seq<Frame> {
    match w
    case WriteState(e) => [State(e.id)] + Last(e)
    case CommitProgress(e) => Last(e)
    case _ => []
  }

  /** The event that is still to be put to its test. */
  function ToTest(w: Writer): seq<Event> { if w.CommitState? then [w.event] else [] }

  predicate Delivers(s: System, popped: seq<Event>, tests: seq<LeaseTest>) {
    Events(s.log.output) + ToWrite(s.writer) == FramesAtAll(tests) && popped == EventsOf(tests) + ToTest(s.writer)
  }

  lemma TestsSnoc(tests: seq<LeaseTest>, t: LeaseTest)
    ensures FramesAtAll(tests + [t]) == FramesAtAll(tests) + FramesAt(t)
    ensures EventsOf(tests + [t]) == EventsOf(tests) + [t.event]
  {
    assert (tests + [t])[..|tests|] == tests;
  }

  lemma ReadDelivers(s: System, popped: seq<Event>, tests: seq<LeaseTest>)
    requires Delivers(s, popped, tests) && s.writer.Read? && s.sink.queue != []
    ensures Delivers(EventNext(s, true), popped + [s.sink.queue[0]], tests)
  {
    assert EventsOf(tests) + [] == EventsOf(tests);
  }

  lemma TestDelivers(s: System, popped: seq<Event>, tests: seq<LeaseTest>, ok: bool)
    requires Delivers(s, popped, tests) && s.writer.CommitState?
    ensures Delivers(EventNext(s, ok), popped, tests + [LeaseTest(s.writer.event, s.sink.valid)])
  {
    var e, events := s.writer.event, Events(s.log.output);
    TestsSnoc(tests, LeaseTest(e, s.sink.valid));
    assert events + [] == events;
    assert EventsOf(tests) + [e] + [] == EventsOf(tests) + [e];
    assert ToWrite(EventNext(s, ok).writer) == FramesAt(LeaseTest(e, s.sink.valid));
  }

  lemma StateDelivers(output: seq<Frame>, e: Event)
    ensures Events(output + [State(e.id)]) + Last(e) == Events(output) + ([State(e.id)] + Last(e))
  {
    EventsAppend(output, [State(e.id)]);
  }

  lemma ProgressDelivers(output: seq<Frame>, e: Event)
    ensures Events(output + Last(e)) + [] == Events(output) + Last(e)
    ensures Last(e) == [] ==> output + Last(e) == output
    ensures ProgressFrames(e) == Last(e)
  {
    EventsAppend(output, Last(e));
  }

  lemma WriteDelivers(s: System, popped: seq<Event>, tests: seq<LeaseTest>)
    requires Delivers(s, popped, tests) && (s.writer.WriteState? || s.writer.CommitProgress?)
    ensures Delivers(EventNext(s, true), popped, tests)
  {
    if s.writer.WriteState? {
      StateDelivers(s.log.output, s.writer.event);
    } else {
      ProgressDelivers(s.log.output, s.writer.event);
    }
  }

  lemma ResponseDelivers(s: System, popped: seq<Event>, tests: seq<LeaseTest>)
    requires Delivers(s, popped, tests) && (s.writer.Top? || s.writer.Commit? || s.writer.Complete?)
    ensures Delivers(ResponseNext(s, true), popped, tests)
  {
    if s.writer.Commit? {
      ResponseAppend(s.log.output, s.writer.ticket);
    }
  }

  lemma WriterDelivers(s: System, ok: bool, popped: seq<Event>, tests: seq<LeaseTest>)
    requires Delivers(s, popped, tests) && !Failed(WriterNext(s, ok)) && !Failed(s)
    ensures Delivers(WriterNext(s, ok), popped + Takes(s, WriterStep(ok)), tests + Makes(s, WriterStep(ok)))
  {
    assert popped + [] == popped && tests + [] == tests;
    match s.writer
    case Top => ResponseDelivers(s, popped, tests);
    case Commit(_) => ResponseDelivers(s, popped, tests);
    case Complete(_) => ResponseDelivers(s, popped, tests);
    case Read =>
      if s.sink.queue != [] {
        ReadDelivers(s, popped, tests);
      }
    case CommitState(_) => TestDelivers(s, popped, tests, ok);
    case WriteState(_) => WriteDelivers(s, popped, tests);
    case CommitProgress(_) => WriteDelivers(s, popped, tests);
    case _ =>
  }

  lemma OthersDeliver(s: System, step: Step)
    requires !step.WriterStep?
    ensures Next(s, step).writer == s.writer && Next(s, step).log.output == s.log.output
  {
  }

  /** A step keeps the account, as long as no write has failed. */
  lemma StepDelivers(s: System, step: Step, popped: seq<Event>, tests: seq<LeaseTest>)
    requires Inv(s) && !Failed(s) && !Failed(Next(s, step)) && Delivers(s, popped, tests)
    ensures Delivers(Next(s, step), popped + Takes(s, step), tests + Makes(s, step))
  {
    if step.WriterStep? {
      WriterDelivers(s, step.ok, popped, tests);
    } else {
      OthersDeliver(s, step);
      assert popped + [] == popped && tests + [] == tests;
    }
  }

  lemma {:induction false} RunDelivers(steps: seq<Step>)
    requires !Failed(Run(steps))
    ensures Delivers(Run(steps), Popped(steps), Tests(steps))
    decreases |steps|
  {
    if steps != [] {
      var init, last := steps[..|steps| - 1], steps[|steps| - 1];
      EveryRunKeepsInv(init);
      if Failed(Run(init)) {
        FailedStays(Run(init), last);
      }
      RunDelivers(init);
      StepDelivers(Run(init), last, Popped(init), Tests(init));
    }
  }

  /** In every run in which no write has failed, the event frames written and those about to be
      are the frames of the events at their tests, in the order in which the events were taken: each
      serialisable event that is no measurement or whose lease was valid at its test, and each
      progress of a recording, once; and every event taken has had its test but the last one,
      while it waits for its test. */
  lemma TakenIsWritten(steps: seq<Step>)
    requires !Failed(Run(steps))
    ensures Events(Run(steps).log.output) + ToWrite(Run(steps).writer) == FramesAtAll(Tests(steps))
    ensures Popped(steps) == EventsOf(Tests(steps)) + ToTest(Run(steps).writer)
  {
    RunDelivers(steps);
  }

  /** An event at the head of the queue with a valid lease is on the output after three steps
      of the writer, if they succeed. */
  lemma LiveIsWritten(s: System, e: Event)
    requires s.writer.Read? && s.sink.queue != [] && s.sink.queue[0] == e
    requires e.serializes && (e.kind != Measurement || e.lease in s.sink.valid)
    ensures WriterNext(WriterNext(WriterNext(s, true), true), true).log.output == s.log.output + [State(e.id)]
  {
  }
}
