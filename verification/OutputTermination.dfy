/** Without output failure every submit returns and every shutdown ends, in any interleaving. */
module OutputTermination {
  import opened OutputProtocol

  /** A step that is not a failing write. */
  predicate Sound(step: Step) { step != WriterStep(false) }

  predicate AllSound(steps: seq<Step>) { forall step <- steps :: Sound(step) }

  lemma SoundStep(s: System, step: Step)
    requires Inv(s) && !Failed(s) && Sound(step)
    ensures !Failed(Next(s, step)) && Inv(Next(s, step))
  {
    StepKeepsInv(s, step);
    if step.WriterStep? {
      SoundWrite(s);
    }
  }

  lemma SoundWrite(s: System)
    requires !Failed(s)
    ensures !Failed(WriterNext(s, true))
  {
  }

  // A submit returns.

  function WriterSteps(steps: seq<Step>): nat {
    if steps == [] then 0
    else WriterSteps(steps[..|steps| - 1]) + (if steps[|steps| - 1].WriterStep? then 1 else 0)
  }

  /** Writer steps until the response on the desk or in hand is written and marked. */
  function Delay(w: Writer): nat {
    match w
    case Read => 8
    case CommitState(_) => 7
    case WriteState(_) => 6
    case CommitProgress(_) => 5
    case Check(closed) => if closed then 5 else 4
    case WaitClosing => 4
    case Top => 3
    case Commit(_) => 2
    case Complete(_) => 1
    case _ => 0
  }

  /** The response of a waiting command is still to be written. */
  predicate Outstanding(s: System, ticket: nat) {
    Waiting(s.command, ticket) && s.desk.next == ticket && s.desk.completed < ticket
  }

  /** What the approach needs of the invariant. */
  predicate Queued(s: System, ticket: nat) {
    Outstanding(s, ticket) && !Failed(s) && TicketsKept(s.command, s.writer, s.desk) && !s.writer.Exit?
  }

  lemma OutstandingIsQueued(s: System, ticket: nat)
    requires Inv(s) && !Failed(s) && Outstanding(s, ticket)
    ensures Queued(s, ticket) && Delay(s.writer) > 0
  {
  }

  predicate Closer(s: System, n: System, ticket: nat) {
    n.desk.completed >= ticket || (Outstanding(n, ticket) && Delay(n.writer) < Delay(s.writer))
  }

  lemma ResponseApproaches(s: System, ticket: nat)
    requires Queued(s, ticket) && (s.writer.Top? || s.writer.Commit? || s.writer.Complete?)
    ensures Closer(s, ResponseNext(s, true), ticket)
  {
  }

  lemma EventApproaches(s: System, ticket: nat)
    requires Queued(s, ticket) && (s.writer.Read? || Writing(s.writer))
    ensures Closer(s, EventNext(s, true), ticket)
  {
  }

  lemma LastApproaches(s: System, ticket: nat)
    requires Queued(s, ticket) && (s.writer.Check? || s.writer.WaitClosing?)
    ensures Closer(s, EndNext(s), ticket)
  {
  }

  lemma WriterApproaches(s: System, ticket: nat)
    requires Queued(s, ticket)
    ensures Closer(s, WriterNext(s, true), ticket)
  {
    if s.writer.Top? || s.writer.Commit? || s.writer.Complete? {
      ResponseApproaches(s, ticket);
    } else if s.writer.Read? || Writing(s.writer) {
      EventApproaches(s, ticket);
    } else {
      LastApproaches(s, ticket);
    }
  }

  lemma OthersWait(s: System, step: Step, ticket: nat)
    requires Queued(s, ticket) && !step.WriterStep?
    ensures Outstanding(Next(s, step), ticket) && Next(s, step).writer == s.writer
  {
  }

  lemma CompletedStays(s: System, step: Step, ticket: nat)
    requires TicketsKept(s.command, s.writer, s.desk) && s.desk.completed >= ticket
    ensures Next(s, step).desk.completed >= ticket
  {
  }

  /** The response is written, or at most so many writer steps away. */
  predicate OnTheWay(s: System, ticket: nat, left: int) {
    Inv(s) && !Failed(s) && (s.desk.completed >= ticket || (Outstanding(s, ticket) && Delay(s.writer) <= left))
  }

  lemma StepApproaches(s: System, step: Step, ticket: nat, left: int)
    requires OnTheWay(s, ticket, left) && Sound(step)
    ensures OnTheWay(Next(s, step), ticket, if step.WriterStep? then left - 1 else left)
  {
    SoundStep(s, step);
    if s.desk.completed >= ticket {
      CompletedStays(s, step, ticket);
    } else {
      OutstandingIsQueued(s, ticket);
      if step.WriterStep? {
        WriterApproaches(s, ticket);
      } else {
        OthersWait(s, step, ticket);
      }
    }
  }

  lemma {:induction false} DelayRunsDown(s: System, steps: seq<Step>, ticket: nat, left: int)
    requires OnTheWay(s, ticket, left) && AllSound(steps)
    ensures OnTheWay(RunFrom(s, steps), ticket, left - WriterSteps(steps))
    decreases |steps|
  {
    if steps != [] {
      var init, last := steps[..|steps| - 1], steps[|steps| - 1];
      assert last in steps && forall step <- init :: step in steps;
      DelayRunsDown(s, init, ticket, left);
      StepApproaches(RunFrom(s, init), last, ticket, left - WriterSteps(init));
    }
  }

  /** Every submit returns: in any interleaving without output failure, once the writer has
      taken eight steps the response is written, and the waiting command thread can go on. */
  lemma SubmitReturns(before: seq<Step>, steps: seq<Step>)
    requires Run(before).command.WaitWritten? && !Failed(Run(before)) && AllSound(steps)
    requires WriterSteps(steps) >= 8
    ensures var ticket, n := Run(before).command.ticket, RunFrom(Run(before), steps);
            n.desk.completed >= ticket && (Waiting(n.command, ticket) ==> !Waiting(CommandNext(n).command, ticket))
  {
    var s, ticket := Run(before), Run(before).command.ticket;
    EveryRunKeepsInv(before);
    WaitingIsOutstanding(s, ticket);
    DelayRunsDown(s, steps, ticket, 8);
    var n := RunFrom(s, steps);
    if n.desk.completed < ticket {
      OutstandingIsQueued(n, ticket);
      assert false;
    }
  }

  lemma WaitingIsOutstanding(s: System, ticket: nat)
    requires Inv(s) && !Failed(s) && Waiting(s.command, ticket)
    ensures OnTheWay(s, ticket, 8)
  {
  }

  // A shutdown ends.

  function CommandRank(c: Command): nat {
    match c
    case WaitFinished(_) => 5
    case WaitFree(_) => 4
    case WaitWritten(_, _) => 3
    case Close(_) => 2
    case Join(_) => 1
    case _ => 0
  }

  function WriterRank(w: Writer): nat {
    match w
    case CommitState(_) => 10
    case WriteState(_) => 9
    case CommitProgress(_) => 8
    case Check(closed) => if closed then 2 else 7
    case Top => 6
    case Commit(_) => 5
    case Complete(_) => 4
    case Read => 3
    case WaitClosing => 1
    case _ => 0
  }

  /** A response on the desk sends the writer through its loop once more. */
  function DeskRank(w: Writer, pending: bool): nat {
    if !pending then WriterRank(w) else if w.Top? then 8 else 8 + WriterRank(w)
  }

  /** What is left to do once the session has finished. */
  function Left(s: System): nat {
    20 * CommandRank(s.command) + 10 * |s.sink.queue| + DeskRank(s.writer, s.desk.pending.Some?)
  }

  lemma ResponseEnds(s: System)
    requires Inv(s) && !Failed(s) && (s.writer.Top? || s.writer.Commit? || s.writer.Complete?)
    ensures var n := ResponseNext(s, true); n.command == s.command && Left(n) < Left(s)
  {
  }

  lemma EventEnds(s: System)
    requires s.sink.finishing && (s.writer.Read? || Writing(s.writer))
    ensures var n := EventNext(s, true); n.command == s.command && Left(n) < Left(s)
  {
  }

  lemma LastEnds(s: System)
    requires !Failed(s) && (s.writer.Check? || s.writer.WaitClosing? || s.writer.Exit?)
    ensures var n := EndNext(s); n.command == s.command && (n == s || Left(n) < Left(s))
  {
  }

  lemma WriterEnds(s: System)
    requires Inv(s) && !Failed(s) && AfterFinish(s.command)
    ensures var n := WriterNext(s, true); n.command == s.command && (n == s || Left(n) < Left(s))
  {
    if s.writer.Top? || s.writer.Commit? || s.writer.Complete? {
      ResponseEnds(s);
    } else if s.writer.Read? || Writing(s.writer) {
      EventEnds(s);
    } else {
      LastEnds(s);
    }
  }

  lemma CommandEnds(s: System)
    requires Inv(s) && !Failed(s) && AfterFinish(s.command)
    ensures var n := CommandNext(s); AfterFinish(n.command) && (n == s || Left(n) < Left(s))
  {
  }

  lemma StepEnds(s: System, step: Step)
    requires Inv(s) && !Failed(s) && AfterFinish(s.command) && Sound(step)
    ensures var n := Next(s, step); AfterFinish(n.command) && (n == s || Left(n) < Left(s))
  {
    match step
    case CommandStep => CommandEnds(s);
    case WriterStep(ok) => WriterEnds(s);
    case _ =>
  }

  /** How many steps of a run change anything. */
  function Effective(s: System, steps: seq<Step>): nat {
    if steps == [] then 0
    else
      var init, last := steps[..|steps| - 1], steps[|steps| - 1];
      Effective(s, init) + (if Next(RunFrom(s, init), last) != RunFrom(s, init) then 1 else 0)
  }

  lemma {:induction false} EffectiveStepsEnd(s: System, steps: seq<Step>)
    requires Inv(s) && !Failed(s) && AfterFinish(s.command) && AllSound(steps)
    ensures var n := RunFrom(s, steps);
            Inv(n) && !Failed(n) && AfterFinish(n.command) && Effective(s, steps) + Left(n) <= Left(s)
    decreases |steps|
  {
    if steps != [] {
      var init, last := steps[..|steps| - 1], steps[|steps| - 1];
      assert steps == init + [last];
      EffectiveStepsEnd(s, init);
      SoundStep(RunFrom(s, init), last);
      StepEnds(RunFrom(s, init), last);
    }
  }

  /** Once the session has finished, some step of the two threads changes something until the
      command thread is done; it is not the writer polling, because only so many can. */
  lemma NeverStuck(s: System)
    requires Inv(s) && !Failed(s) && AfterFinish(s.command) && !s.command.Done?
    ensures CommandNext(s) != s || WriterNext(s, true) != s
  {
  }

  /** Shutdown and end of input end: after finish, in any interleaving without output failure,
      no more steps can change anything than were left to do, and a run in which that many have
      is done, a shutdown with its response and the end of input without; until then one of the
      threads can always move. */
  lemma ShutdownEnds(before: seq<Step>, steps: seq<Step>)
    requires AfterFinish(Run(before).command) && !Failed(Run(before)) && AllSound(steps)
    ensures var s, n := Run(before), RunFrom(Run(before), steps);
            Effective(s, steps) <= Left(s) &&
            (Effective(s, steps) == Left(s) ==> n.command == Done(Outcome(s.command))) &&
            (n.command == Done(Outcome(s.command)) || CommandNext(n) != n || WriterNext(n, true) != n)
  {
    var s := Run(before);
    EveryRunKeepsInv(before);
    EffectiveStepsEnd(s, steps);
    RunEndsAs(s, steps, Outcome(s.command), LastTicket(s.command, s.desk));
    var n := RunFrom(s, steps);
    if !n.command.Done? {
      NeverStuck(n);
    }
  }

  /** And so such a run exists from every state after finish. */
  lemma {:induction false} ReachesDone(s: System) returns (steps: seq<Step>)
    requires Inv(s) && !Failed(s) && AfterFinish(s.command)
    ensures AllSound(steps) && |steps| <= Left(s) && RunFrom(s, steps).command == Done(Outcome(s.command))
    decreases Left(s)
  {
    if s.command.Done? {
      return [];
    }
    NeverStuck(s);
    var step := if CommandNext(s) != s then CommandStep else WriterStep(true);
    SoundStep(s, step);
    StepEnds(s, step);
    StepEndsAs(s, step, Outcome(s.command), LastTicket(s.command, s.desk));
    var rest := ReachesDone(Next(s, step));
    RunFromCons(s, step, rest);
    steps := [step] + rest;
  }

  lemma {:induction false} RunFromCons(s: System, step: Step, steps: seq<Step>)
    ensures RunFrom(s, [step] + steps) == RunFrom(Next(s, step), steps)
    decreases |steps|
  {
    if steps == [] {
      assert [step] + steps == [step] && [step][..0] == [];
    } else {
      assert ([step] + steps)[..|steps|] == [step] + steps[..|steps| - 1];
      RunFromCons(s, step, steps[..|steps| - 1]);
    }
  }
}
