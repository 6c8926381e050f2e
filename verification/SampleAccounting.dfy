/** What becomes of every record: when it is handed over, which counters it moves, and when it
    ends the session. */
module SampleAccounting {
  import opened Wrappers
  import opened SequenceTracking
  import opened SampleDelivery

  /** The number is new: the span is empty, or it lies ahead of everything received in it. */
  predicate Ahead(span: seq<U32>, value: U32) {
    span == [] || Nearest(Highest(Lift(span)), value) > Highest(Lift(span))
  }

  /** A record worth handing over: new in its span, from a sensor that moves on, and without an
      error unless errors are wanted. */
  predicate Wanted(cfg: Config, span: seq<U32>, progress: FtKind, r: Record) {
    Ahead(span, r.rdt) && progress != Stall && progress != Backward && (r.severity != Error || cfg.deliverErrors)
  }

  /** There is a limit, something was delivered, and less than a period ago. */
  predicate Early(cfg: Config, last: real, at: real) {
    cfg.limitHz > 0.0 && last != 0.0 && at - last < 1.0 / cfg.limitHz
  }

  lemma AheadIsNew(span: seq<U32>, value: U32)
    ensures Ahead(span, value) <==> KindOf(BaselineOf(span), value) !in {Duplicate, OutOfOrder}
  {
    if span != [] {
      KindIsOrder(span, value);
    }
  }

  lemma DeliversFrom(cfg: Config, s: Run, r: Record, at: real)
    requires Counts(s) && s.pending.None?
    ensures Next(cfg, s, Receive(r, at)).pending.Some? <==>
            Wanted(cfg, s.spans[|s.spans| - 1], FtKindOf(s.link.ft, r.ft), r) && !Early(cfg, s.link.last, at)
  {
    AheadIsNew(s.spans[|s.spans| - 1], r.rdt);
  }

  /** In every run: a record is on its way to the callback if and only if it is wanted and not
      too early. */
  lemma DeliversExactly(cfg: Config, steps: seq<Step>, r: Record, at: real)
    requires RunAll(cfg, steps).pending.None?
    ensures var s, n := RunAll(cfg, steps), RunAll(cfg, steps + [Receive(r, at)]);
            n.pending.Some? <==>
            Wanted(cfg, s.spans[|s.spans| - 1], FtKindOf(s.link.ft, r.ft), r) && !Early(cfg, s.link.last, at)
  {
    EveryRunCounts(cfg, steps);
    RunOne(cfg, steps, Receive(r, at));
    DeliversFrom(cfg, RunAll(cfg, steps), r, at);
  }

  lemma RunOne(cfg: Config, steps: seq<Step>, step: Step)
    ensures RunAll(cfg, steps + [step]) == Next(cfg, RunAll(cfg, steps), step)
  {
    assert (steps + [step])[..|steps|] == steps;
  }

  /** A sample on its way is handed over when its values are finite, and is the last delivery
      when the callback returns. */
  lemma HandsOverExactly(cfg: Config, steps: seq<Step>, finite: bool, callback: Callback)
    requires RunAll(cfg, steps).pending.Some?
    ensures var s, n := RunAll(cfg, steps), RunAll(cfg, steps + [HandOver(finite, callback)]);
            var p := s.pending.value;
            && n.pending.None?
            && n.handed == (if finite then s.handed + [p] else s.handed)
            && n.successes == (if finite && callback == Returned then s.successes + [p.at] else s.successes)
            && n.link.last == (if finite && callback == Returned then p.at else s.link.last)
  {
    RunOne(cfg, steps, HandOver(finite, callback));
  }

  // The counters.

  /** What a run does that is counted. */
  datatype Fact =
    | Taken(progress: FtKind, severity: Severity, early: bool)
    | Called(callback: Callback)

  function Facts(cfg: Config, steps: seq<Step>): seq<Fact> {
    if steps == [] then []
    else
      var s, step := RunAll(cfg, steps[..|steps| - 1]), steps[|steps| - 1];
      Facts(cfg, steps[..|steps| - 1]) + FactsOf(cfg, s, step)
  }

  function FactsOf(cfg: Config, s: Run, step: Step): seq<Fact> {
    match step
    case Receive(r, at) =>
      if s.pending.Some? then []
      else
        var progress := FtKindOf(s.link.ft, r.ft);
        [Taken(progress, r.severity,
               Wanted(cfg, s.spans[|s.spans| - 1], progress, r) && Early(cfg, s.link.last, at))]
    case HandOver(finite, callback) => if s.pending.None? || !finite then [] else [Called(callback)]
    case _ => []
  }

  function HowMany(facts: seq<Fact>, p: Fact -> bool): nat {
    if facts == [] then 0
    else HowMany(facts[..|facts| - 1], p) + if p(facts[|facts| - 1]) then 1 else 0
  }

  const STALLS: Fact -> bool := (f: Fact) => f.Taken? && f.progress == Stall
  const BACKWARDS: Fact -> bool := (f: Fact) => f.Taken? && f.progress == Backward
  const RESTARTS: Fact -> bool := (f: Fact) => f.Taken? && f.progress == Restart
  const WARNINGS: Fact -> bool := (f: Fact) => f.Taken? && f.severity == Warning
  const ERRORS: Fact -> bool := (f: Fact) => f.Taken? && f.severity == Error
  const LIMITED: Fact -> bool := (f: Fact) => f.Taken? && f.early
  const RETURNED: Fact -> bool := (f: Fact) => f.Called? && f.callback == Returned
  const THROWN: Fact -> bool := (f: Fact) => f.Called? && f.callback == Threw

  /** How many of each there are. */
  function Figures(facts: seq<Fact>): Counters {
    Counters(HowMany(facts, STALLS), HowMany(facts, BACKWARDS), HowMany(facts, RESTARTS), HowMany(facts, WARNINGS),
             HowMany(facts, ERRORS), HowMany(facts, LIMITED), HowMany(facts, RETURNED), HowMany(facts, THROWN))
  }

  function One(b: bool): nat { if b then 1 else 0 }

  /** One fact more. */
  function Bumped(c: Counters, f: Fact): Counters {
    Counters(c.stalls + One(STALLS(f)), c.backwards + One(BACKWARDS(f)), c.restarts + One(RESTARTS(f)),
             c.warnings + One(WARNINGS(f)), c.errors + One(ERRORS(f)), c.limited + One(LIMITED(f)),
             c.delivered + One(RETURNED(f)), c.callbackErrors + One(THROWN(f)))
  }

  lemma HowManySnoc(facts: seq<Fact>, f: Fact, p: Fact -> bool)
    ensures HowMany(facts + [f], p) == HowMany(facts, p) + if p(f) then 1 else 0
  {
    assert (facts + [f])[..|facts|] == facts;
  }

  lemma FiguresSnoc(facts: seq<Fact>, f: Fact)
    ensures Figures(facts + [f]) == Bumped(Figures(facts), f)
  {
    HowManySnoc(facts, f, STALLS);
    HowManySnoc(facts, f, BACKWARDS);
    HowManySnoc(facts, f, RESTARTS);
    HowManySnoc(facts, f, WARNINGS);
    HowManySnoc(facts, f, ERRORS);
    HowManySnoc(facts, f, LIMITED);
    HowManySnoc(facts, f, RETURNED);
    HowManySnoc(facts, f, THROWN);
  }

  lemma TakenBumps(c: Counters, progress: FtKind, severity: Severity, early: bool)
    ensures var d := CountSeverity(CountFt(c, progress), severity);
            Bumped(c, Taken(progress, severity, early)) == if early then d.(limited := d.limited + 1) else d
  {
  }

  lemma CalledBumps(c: Counters, callback: Callback)
    ensures Bumped(c, Called(callback)) ==
            if callback == Threw then c.(callbackErrors := c.callbackErrors + 1) else c.(delivered := c.delivered + 1)
  {
  }

  lemma ReceiveBumps(cfg: Config, s: Run, r: Record, at: real)
    requires Counts(s) && s.pending.None?
    ensures var span, progress := s.spans[|s.spans| - 1], FtKindOf(s.link.ft, r.ft);
            var early := Wanted(cfg, span, progress, r) && Early(cfg, s.link.last, at);
            AfterReceive(cfg, s, r, at).link.counters == Bumped(s.link.counters, Taken(progress, r.severity, early))
  {
    var span, progress := s.spans[|s.spans| - 1], FtKindOf(s.link.ft, r.ft);
    AheadIsNew(span, r.rdt);
    TakenBumps(s.link.counters, progress, r.severity,
               Wanted(cfg, span, progress, r) && Early(cfg, s.link.last, at));
  }

  lemma StepAgrees(cfg: Config, s: Run, step: Step, facts: seq<Fact>)
    requires Counts(s) && s.link.counters == Figures(facts)
    ensures Next(cfg, s, step).link.counters == Figures(facts + FactsOf(cfg, s, step))
  {
    if FactsOf(cfg, s, step) == [] {
      assert facts + [] == facts;
    } else {
      FiguresSnoc(facts, FactsOf(cfg, s, step)[0]);
      match step
      case Receive(r, at) => ReceiveBumps(cfg, s, r, at);
      case HandOver(finite, callback) => CalledBumps(s.link.counters, callback);
    }
  }

  /** In every run each counter is the number of the records, or of the calls, that it names:
      stalls, backward steps and restarts of the sensor, warnings and errors, wanted records
      that came too early, and calls that returned or threw. */
  lemma {:induction false} CountersAre(cfg: Config, steps: seq<Step>)
    ensures RunAll(cfg, steps).link.counters == Figures(Facts(cfg, steps))
    decreases |steps|
  {
    if steps != [] {
      var init := steps[..|steps| - 1];
      CountersAre(cfg, init);
      EveryRunCounts(cfg, init);
      StepAgrees(cfg, RunAll(cfg, init), steps[|steps| - 1], Facts(cfg, init));
    }
  }

  // The end of a session.

  /** A record ends the session if it reports an error, or if the sensor stalls or goes backward
      and the client is not to go on by reconnecting; and an error comes first. */
  lemma EndsExactly(cfg: Config, l: Link, r: Record, at: real)
    ensures var outcome, progress := Decide(cfg, l, r, at).outcome, FtKindOf(l.ft, r.ft);
            && (outcome == Some(SeriousStatus) <==> r.severity == Error)
            && (outcome == Some(FtStalled) <==> r.severity != Error && progress == Stall && !cfg.reconnect)
            && (outcome == Some(FtWentBackward) <==> r.severity != Error && progress == Backward && !cfg.reconnect)
            && (outcome.None? <==>
                  r.severity != Error && (cfg.reconnect || (progress != Stall && progress != Backward)))
  {
  }
}
