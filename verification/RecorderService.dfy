/** What each operation of the recorder achieves, from every reachable state it can begin in,
    when the other threads pause and nothing fails. */
module RecorderService {
  import opened CaptureMetadata
  import opened GateWord
  import opened RecorderProtocol
  import opened RecorderInvariant
  import opened RecorderTheorems

  function Produced(s: Recorder, row: Row): Recorder { NextProducer(s, row, false) }

  function Controlled(s: Recorder): Recorder { NextControl(s, true, false) }

  /** submit() of one row, in its own steps without a spurious failure. */
  function Submitted(s: Recorder, row: Row, steps: nat): Recorder {
    if steps == 0 then s else Produced(Submitted(s, row, steps - 1), row)
  }

  function Acted(s: Recorder, steps: nat): Recorder {
    if steps == 0 then s else Controlled(Acted(s, steps - 1))
  }

  lemma {:induction false} SubmittedThen(s: Recorder, row: Row, a: nat, b: nat)
    ensures Submitted(s, row, a + b) == Submitted(Submitted(s, row, a), row, b)
    decreases b
  {
    if b > 0 {
      SubmittedThen(s, row, a, b - 1);
    }
  }

  lemma {:induction false} ActedThen(s: Recorder, a: nat, b: nat)
    ensures Acted(s, a + b) == Acted(Acted(s, a), b)
    decreases b
  {
    if b > 0 {
      ActedThen(s, a, b - 1);
    }
  }

  lemma Admits(s: Recorder, row: Row)
    requires Inv(s) && s.gate.open && s.producer == Outside
    ensures s.gate == OPENED
    ensures Submitted(s, row, 2) == s.(gate := s.gate.Entered(), producer := Submitting(row, Admitted))
  {
    assert Submitted(s, row, 1) == s.(producer := Entering(row, s.gate));
  }

  /** With the gate open and fewer than 65536 rows queued a row is accepted and queued. */
  lemma SubmitAccepts(before: seq<Step>, row: Row)
    requires var s := After(before); s.gate.open && s.producer == Outside && |s.queue| < 65536
    ensures var s, n := After(before), Submitted(After(before), row, 6);
            && n.queue == s.queue + [row] && n.log.accepted == s.log.accepted + [row]
            && n.tally.accepted == s.tally.accepted + 1
            && n.gate == s.gate && n.state == s.state && n.producer == Outside
  {
    var s := After(before);
    EveryRunIsSound(before);
    Admits(s, row);
    var a := s.(gate := s.gate.Entered(), producer := Submitting(row, Publishing));
    assert Submitted(s, row, 3) == a;
    var b := a.(queue := s.queue + [row], producer := Submitting(row, Counting));
    assert Submitted(s, row, 4) == b;
    var c := b.(tally := s.tally.(accepted := s.tally.accepted + 1), producer := Submitting(row, Leaving));
    assert Submitted(s, row, 5) == c;
  }

  /** With 65536 rows queued the row is not: the gate is shut and the recorder in Error. */
  lemma SubmitOverflows(before: seq<Step>, row: Row)
    requires var s := After(before); s.gate.open && s.producer == Outside && |s.queue| == 65536
    ensures var s, n := After(before), Submitted(After(before), row, 9);
            && n.queue == s.queue && n.log.accepted == s.log.accepted && n.tally == s.tally
            && n.gate == SHUT && n.state == Error && n.producer == Outside
  {
    EveryRunIsSound(before);
    OverflowsFrom(After(before), row);
  }

  lemma OverflowsFrom(s: Recorder, row: Row)
    requires Inv(s) && s.gate.open && s.producer == Outside && |s.queue| == 65536
    ensures Submitted(s, row, 9) == s.(gate := SHUT, state := Error)
  {
    var full := s.(gate := s.gate.Entered(), producer := Overflowing(FirstClose));
    FindsFull(s, row);
    Overflows(full, row);
    Joined(s, row, full, full.(gate := full.gate.Closed().Closed().Left(), state := Error, producer := Outside));
  }

  lemma Joined(s: Recorder, row: Row, a: Recorder, b: Recorder)
    requires Submitted(s, row, 3) == a && Submitted(a, row, 6) == b
    ensures Submitted(s, row, 9) == b
  {
    SubmittedThen(s, row, 3, 6);
  }

  lemma FindsFull(s: Recorder, row: Row)
    requires Inv(s) && s.gate.open && s.producer == Outside && |s.queue| == 65536
    ensures s.gate == OPENED && s.state != Idle
    ensures Submitted(s, row, 3) == s.(gate := s.gate.Entered(), producer := Overflowing(FirstClose))
  {
    Admits(s, row);
  }

  lemma Overflows(s: Recorder, row: Row)
    requires s.producer == Overflowing(FirstClose) && s.state != Idle
    ensures Submitted(s, row, 6) == s.(gate := s.gate.Closed().Closed().Left(), state := Error, producer := Outside)
  {
    var a := s.(gate := s.gate.Closed().Closed());
    assert Submitted(s, row, 1) == s.(gate := s.gate.Closed(), producer := Overflowing(SecondClose));
    assert Submitted(s, row, 2) == a.(producer := Overflowing(SetFlag));
    assert Submitted(s, row, 3) == a.(producer := Overflowing(LoadState));
    assert Submitted(s, row, 4) == a.(producer := Overflowing(CasState(s.state)));
    assert Submitted(s, row, 5) == a.(producer := Overflowing(LeaveFull), state := Error);
  }

  /** With the gate closed it is turned away and nothing changes. */
  lemma SubmitRejects(s: Recorder, row: Row)
    requires !s.gate.open && s.producer == Outside
    ensures Submitted(s, row, 3) == s
  {
    assert Submitted(s, row, 1) == s.(producer := Entering(row, s.gate));
    assert Submitted(s, row, 2) == s.(producer := Rejected);
  }

  /** start() on an idle recorder: a new file, empty counters, a writer and an open gate. */
  lemma StartRecords(before: seq<Step>)
    requires var s := After(before); s.control == Ready && s.state == Idle && !s.Joinable()
    ensures var s, n := After(before), Acted(Begin(After(before), Start), 8);
            && n.control == Ready && n.state == Recording && n.gate == OPENED && n.fileOpen
            && n.writer == Draining([], Check) && !n.writerDone && n.queue == []
            && n.tally == EMPTY && n.log == Log([], [], false, false, s.log.archive)
  {
    var s := After(before);
    EveryRunIsSound(before);
    StartsFrom(s);
  }

  lemma StartsFrom(s: Recorder)
    requires Inv(s) && s.control == Ready && s.state == Idle && !s.Joinable()
    ensures s.queue == []
    ensures Acted(Begin(s, Start), 8) ==
            s.(state := Recording, tally := EMPTY, writerDone := false, log := Log([], [], false, false, s.log.archive),
               fileOpen := true, gate := OPENED, writer := Draining([], Check))
  {
    var chosen := s.(state := Starting, tally := EMPTY, writerDone := false,
                     log := Log([], [], false, false, s.log.archive), control := Preparing(Create));
    Chooses(s);
    Launches(chosen);
    JoinedActs(Begin(s, Start), chosen, Acted(chosen, 5));
  }

  lemma JoinedActs(s: Recorder, a: Recorder, b: Recorder)
    requires Acted(s, 3) == a && Acted(a, 5) == b
    ensures Acted(s, 8) == b
  {
    ActedThen(s, 3, 5);
  }

  lemma Chooses(s: Recorder)
    requires s.control == Ready && s.state == Idle && !s.Joinable()
    ensures Acted(Begin(s, Start), 3) ==
            s.(state := Starting, tally := EMPTY, writerDone := false,
               log := Log([], [], false, false, s.log.archive), control := Preparing(Create))
  {
    assert Acted(Begin(s, Start), 1) == s.(control := Choosing(Paths(false)));
    assert Acted(Begin(s, Start), 2) == s.(control := Choosing(Reset));
  }

  lemma Launches(s: Recorder)
    requires s.control == Preparing(Create) && s.gate == SHUT
    ensures Acted(s, 5) ==
            s.(fileOpen := true, state := Recording, gate := OPENED, writer := Draining([], Check), control := Ready)
  {
    var a := s.(fileOpen := true);
    assert Acted(s, 1) == a.(control := Preparing(Header));
    assert Acted(s, 2) == a.(control := Preparing(MarkRecording));
    assert Acted(s, 3) == a.(state := Recording, control := Preparing(OpenGate));
    assert Acted(s, 4) == a.(state := Recording, gate := OPENED, control := Spawning(false));
  }

  /** pause() while recording: the gate is shut and the drain requested. */
  lemma PauseRequests(s: Recorder)
    requires s.control == Ready && s.state == Recording
    ensures Acted(Begin(s, Pause), 3) ==
            s.(gate := s.gate.Closed(), state := Pausing, control := PauseBody(AwaitPaused))
  {
    var a := Begin(s, Pause);
    assert Acted(a, 1) == s.(control := PauseEntry(true));
    assert Acted(a, 2) == s.(gate := s.gate.Closed(), control := PauseBody(MarkPausing));
  }

  /** resume() while paused: recording goes on with the gate open. */
  lemma ResumeRecords(before: seq<Step>)
    requires var s := After(before); s.control == Ready && s.state == Paused
    ensures Acted(Begin(After(before), Resume), 2) == After(before).(gate := OPENED, state := Recording)
  {
    var s := After(before);
    EveryRunIsSound(before);
    assert Acted(Begin(s, Resume), 1) == s.(state := Recording, control := ResumeOpen);
  }

  /** stop() while recording or paused: the gate is shut and the end requested. */
  lemma StopRequests(s: Recorder)
    requires s.control == Ready && (s.state == Recording || s.state == Paused)
    ensures Acted(Begin(s, Stop), 4) ==
            s.(gate := s.gate.Closed(), state := Stopping, control := StopBody(AwaitDone))
  {
    var a := Begin(s, Stop);
    assert Acted(a, 1) == s.(control := StopEntry(true));
    assert Acted(a, 2) == s.(gate := s.gate.Closed(), control := StopBody(ScanState));
    assert Acted(a, 3) == s.(gate := s.gate.Closed(), control := StopBody(MarkStopping(s.state)));
  }

  // The writer.

  function Wrote(s: Recorder, steps: nat): Recorder
    decreases steps
  {
    if steps == 0 then s else Wrote(NextWriter(s, true, false), steps - 1)
  }

  lemma {:induction false} WroteThen(s: Recorder, a: nat, b: nat)
    ensures Wrote(s, a + b) == Wrote(Wrote(s, a), b)
    decreases a
  {
    if a > 0 {
      WroteThen(NextWriter(s, true, false), a - 1, b);
    }
  }

  lemma TakesRow(s: Recorder, batch: seq<Row>)
    requires s.writer == Draining(batch, Check) && |batch| < 512 && s.queue != []
    ensures NextWriter(NextWriter(s, true, false), true, false) ==
            s.(queue := s.queue[1..], writer := Draining(batch + [s.queue[0]], Check))
  {
    assert NextWriter(s, true, false) == s.(writer := Draining(batch, Take));
  }

  /** The writer at the start of its loop, with a batch taken from the queue. */
  function Taking(s: Recorder, batch: seq<Row>, queue: seq<Row>): Recorder {
    s.(queue := queue, writer := Draining(batch, Check))
  }

  lemma TakesOne(s: Recorder, batch: seq<Row>, queue: seq<Row>, steps: nat)
    requires |batch| < 512 && queue != [] && steps >= 2
    ensures Wrote(Taking(s, batch, queue), steps) == Wrote(Taking(s, batch + [queue[0]], queue[1..]), steps - 2)
  {
    TakesRow(Taking(s, batch, queue), batch);
  }

  lemma {:induction false} TakesAll(s: Recorder, batch: seq<Row>, queue: seq<Row>, steps: nat)
    requires |batch| + |queue| <= 512 && steps == 2 * |queue|
    ensures Wrote(Taking(s, batch, queue), steps) == Taking(s, batch + queue, [])
    decreases |queue|
  {
    if queue == [] {
      assert batch + queue == batch;
    } else {
      TakesOne(s, batch, queue, steps);
      TakesAll(s, batch + [queue[0]], queue[1..], steps - 2);
      assert batch + [queue[0]] + queue[1..] == batch + queue;
    }
  }

  lemma WroteThree(s: Recorder)
    ensures Wrote(s, 3) == NextWriter(NextWriter(NextWriter(s, true, false), true, false), true, false)
  {
    var n := NextWriter(s, true, false);
    assert Wrote(s, 3) == Wrote(n, 2);
    assert Wrote(n, 2) == Wrote(NextWriter(n, true, false), 1);
  }

  lemma WritesBatch(s: Recorder, batch: seq<Row>)
    requires s.writer == Draining(batch, Check) && batch != [] && s.queue == []
    ensures var n := Wrote(s, 3);
            && n.log == s.log.(rows := s.log.rows + batch) && n.tally.written == s.tally.written + |batch|
            && n.queue == [] && n.state == s.state && n.gate == s.gate && n.writer == Observing
  {
    var noted := s.tally.(capture := NoteAll(s.tally.capture, batch));
    var a := NextWriter(s, true, false);
    assert a == s.(writer := Draining(batch, Emit), tally := noted);
    var b := NextWriter(a, true, false);
    assert b == s.(writer := Tallying(|batch|), tally := noted, log := s.log.(rows := s.log.rows + batch));
    WroteThree(s);
  }

  /** A writer at the start of its loop writes up to 512 queued rows, in order, and counts them. */
  lemma WriterWrites(s: Recorder)
    requires s.writer == Draining([], Check) && 0 < |s.queue| <= 512
    ensures var n := Wrote(s, 2 * |s.queue| + 3);
            && n.log.rows == s.log.rows + s.queue && n.tally.written == s.tally.written + |s.queue|
            && n.queue == [] && n.log.accepted == s.log.accepted && n.state == s.state && n.gate == s.gate
  {
    assert [] + s.queue == s.queue && Taking(s, [], s.queue) == s;
    TakesAll(s, [], s.queue, 2 * |s.queue|);
    WritesTaken(s, 2 * |s.queue|, Taking(s, s.queue, []), s.queue);
  }

  lemma WritesTaken(s: Recorder, steps: nat, taken: Recorder, batch: seq<Row>)
    requires Wrote(s, steps) == taken && taken == Taking(s, batch, []) && batch != []
    ensures var n := Wrote(s, steps + 3);
            && n.log.rows == s.log.rows + batch && n.tally.written == s.tally.written + |batch|
            && n.queue == [] && n.log.accepted == s.log.accepted && n.state == s.state && n.gate == s.gate
  {
    WritesBatch(taken, batch);
    WroteThen(s, steps, 3);
  }
}
