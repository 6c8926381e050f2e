/** From received record to sample callback: counters, the delivery decision and the rate limit. */
module SampleDelivery {
  import opened Wrappers
  import opened SequenceTracking

  datatype Severity = Fine | Warning | Error

  datatype Record = Record(rdt: U32, ft: U32, severity: Severity)

  datatype Config = Config(limitHz: real, deliverErrors: bool, reconnect: bool)

  datatype Outcome = SeriousStatus | FtStalled | FtWentBackward | BadConfiguration | CallbackFailed

  datatype Counters = Counters(stalls: nat, backwards: nat, restarts: nat, warnings: nat, errors: nat,
                               limited: nat, delivered: nat, callbackErrors: nat)

  /** The state a record meets. A last delivery at time 0 stands for none. */
  datatype Link = Link(rdt: Option<U32>, ft: Ft, tally: Tally, counters: Counters, last: real)

  function CountFt(c: Counters, kind: FtKind): Counters {
    match kind
    case Stall => c.(stalls := c.stalls + 1)
    case Backward => c.(backwards := c.backwards + 1)
    case Restart => c.(restarts := c.restarts + 1)
    case _ => c
  }

  function CountSeverity(c: Counters, severity: Severity): Counters {
    match severity
    case Fine => c
    case Warning => c.(warnings := c.warnings + 1)
    case Error => c.(errors := c.errors + 1)
  }

  /** Why a record ends the session, if it does. */
  function Verdict(cfg: Config, severity: Severity, kind: FtKind): Option<Outcome> {
    if severity == Error then Some(SeriousStatus)
    else if cfg.reconnect then None
    else if kind == Stall then Some(FtStalled)
    else if kind == Backward then Some(FtWentBackward)
    else None
  }

  /** A record that may be delivered as far as its content goes. */
  predicate Deliverable(cfg: Config, kind: Kind, ft: FtKind, severity: Severity) {
    kind != Duplicate && kind != OutOfOrder && ft != Stall && ft != Backward &&
    (severity == Error ==> cfg.deliverErrors)
  }

  /** The least time between deliveries. */
  function Period(cfg: Config): real {
    if cfg.limitHz > 0.0 then 1.0 / cfg.limitHz else 0.0
  }

  predicate TooSoon(cfg: Config, last: real, at: real) {
    cfg.limitHz > 0.0 && last != 0.0 && at - last < Period(cfg)
  }

  datatype Decision = Decision(link: Link, deliver: bool, outcome: Option<Outcome>)

  function Decide(cfg: Config, l: Link, r: Record, at: real): Decision {
    var kind, ft := KindOf(l.rdt, r.rdt), FtKindOf(l.ft, r.ft);
    var wanted := Deliverable(cfg, kind, ft, r.severity);
    var limited := wanted && TooSoon(cfg, l.last, at);
    var c := CountSeverity(CountFt(l.counters, ft), r.severity);
    Decision(Link(BaselineAfter(l.rdt, r.rdt), FtAfter(l.ft, r.ft), Counted(l.tally, kind),
                  if limited then c.(limited := c.limited + 1) else c, l.last),
             wanted && !limited, Verdict(cfg, r.severity, ft))
  }

  datatype Callback = Returned | Threw

  /** What handing over a sample does to the state. */
  function Handover(l: Link, at: real, finite: bool, callback: Callback): Link {
    if !finite then l
    else if callback == Threw then l.(counters := l.counters.(callbackErrors := l.counters.callbackErrors + 1))
    else l.(counters := l.counters.(delivered := l.counters.delivered + 1), last := at)
  }

  class Client {
    const cfg: Config
    const rdt: RdtTracker
    const ft: FtTracker
    var tally: Tally
    var counters: Counters
    var last: real

    function View(): Link
      reads this, rdt, ft
    {
      Link(rdt.Baseline(), ft.View(), tally, counters, last)
    }

    constructor (cfg: Config)
      ensures this.cfg == cfg && fresh(rdt) && fresh(ft)
      ensures View() == Link(None, Ft(None, None), NOTHING, Counters(0, 0, 0, 0, 0, 0, 0, 0), 0.0)
    {
      this.cfg := cfg;
      rdt := new RdtTracker();
      ft := new FtTracker();
      tally, counters, last := NOTHING, Counters(0, 0, 0, 0, 0, 0, 0, 0), 0.0;
    }

    /** What the kinds and the severity of a record decide. */
    method Judge(kind: Kind, ftKind: FtKind, severity: Severity) returns (deliver: bool, outcome: Option<Outcome>)
      ensures deliver == Deliverable(cfg, kind, ftKind, severity)
      ensures outcome == Verdict(cfg, severity, ftKind)
    {
      deliver, outcome := kind != Duplicate && kind != OutOfOrder, None;
      if severity == Error {
        deliver := cfg.deliverErrors && deliver;
        outcome := Some(SeriousStatus);
      }
      if outcome.None? && ftKind == Stall {
        outcome := Some(FtStalled);
      } else if outcome.None? && ftKind == Backward {
        outcome := Some(FtWentBackward);
      }
      if ftKind == Stall || ftKind == Backward {
        deliver := false;
        if cfg.reconnect && (outcome == Some(FtStalled) || outcome == Some(FtWentBackward)) {
          outcome := None;
        }
      }
    }

    method Count(kind: Kind, ftKind: FtKind, severity: Severity)
      modifies this`tally, this`counters
      ensures tally == Counted(old(tally), kind)
      ensures counters == CountSeverity(CountFt(old(counters), ftKind), severity)
    {
      var t, c := tally.(received := tally.received + 1), counters;
      match kind {
        case Gap(lost) => t := t.(lost := t.lost + lost);
        case Duplicate => t := t.(duplicates := t.duplicates + 1);
        case OutOfOrder => t := t.(late := t.late + 1);
        case _ =>
      }
      match ftKind {
        case Stall => c := c.(stalls := c.stalls + 1);
        case Backward => c := c.(backwards := c.backwards + 1);
        case Restart => c := c.(restarts := c.restarts + 1);
        case _ =>
      }
      if severity == Warning {
        c := c.(warnings := c.warnings + 1);
      } else if severity == Error {
        c := c.(errors := c.errors + 1);
      }
      tally, counters := t, c;
    }

    /** The part of handle_record under the record lock. */
    method Receive(r: Record, at: real) returns (deliver: bool, outcome: Option<Outcome>)
      modifies this, rdt, ft
      ensures var d := Decide(cfg, old(View()), r, at);
              View() == d.link && deliver == d.deliver && outcome == d.outcome
    {
      var kind := rdt.Observe(r.rdt);
      var ftKind := ft.Observe(r.ft);
      Count(kind, ftKind, r.severity);
      deliver, outcome := Judge(kind, ftKind, r.severity);
      if deliver && cfg.limitHz > 0.0 && last != 0.0 && at - last < Period(cfg) {
        deliver := false;
        counters := counters.(limited := counters.limited + 1);
      }
    }

    /** handle_record: the decision, then the callback outside the locks. */
    method HandleRecord(r: Record, at: real, finite: bool, callback: Callback) returns (outcome: Option<Outcome>)
      modifies this, rdt, ft
      ensures var d := Decide(cfg, old(View()), r, at);
              View() == (if d.deliver then Handover(d.link, at, finite, callback) else d.link) &&
              outcome == if d.deliver && !finite then Some(BadConfiguration)
                         else if d.deliver && callback == Threw && d.outcome.None? && !cfg.reconnect then
                           Some(CallbackFailed)
                         else d.outcome
    {
      var deliver;
      deliver, outcome := Receive(r, at);
      if !deliver {
        return;
      }
      if !finite {
        return Some(BadConfiguration);
      }
      if callback == Threw {
        counters := counters.(callbackErrors := counters.callbackErrors + 1);
        if outcome.Some? || cfg.reconnect {
          return;
        }
        return Some(CallbackFailed);
      }
      last := at;
      counters := counters.(delivered := counters.delivered + 1);
    }

    method BeginSession()
      modifies rdt, ft
      ensures View() == old(View()).(rdt := None, ft := old(View()).ft.(candidate := None))
    {
      rdt.Reset();
      ft.BeginSession();
    }

    /** bias(): refused unless the client is streaming; either send may fail, and then the
        tracker is left alone. */
    method Bias(streaming: bool, biasSent: bool, startSent: bool) returns (ok: bool)
      modifies rdt
      ensures ok <==> streaming && biasSent && startSent
      ensures View() == if ok then old(View()).(rdt := None) else old(View())
    {
      if !streaming {
        return false;
      }
      if !biasSent {
        return false;
      }
      if !startSent {
        return false;
      }
      rdt.Reset();
      return true;
    }
  }

  // Runs. A bias command may come between the decision about a record and its callback.

  datatype Step =
    | Receive(record: Record, at: real)
    | HandOver(finite: bool, callback: Callback)
    | Bias
    | BeginSession
    | Start

  /** A sample handed over: its span, its unwrapped number and its time. */
  datatype Handed = Handed(span: nat, number: int, at: real)

  /** History: the numbers received between tracker resets, the sample on its way to the
      callback, the samples handed over, and the times of the successes since the start. */
  datatype RawRun = Run(link: Link, spans: seq<seq<U32>>, pending: Option<Handed>, handed: seq<Handed>,
                        successes: seq<real>)

  type Run = s: RawRun | s.spans != []
    witness Run(Link(None, Ft(None, None), NOTHING, Counters(0, 0, 0, 0, 0, 0, 0, 0), 0.0), [[]], None, [], [])

  const NO_NUMBERS: seq<U32> := []

  const INITIAL: Run := Run(Link(None, Ft(None, None), NOTHING, Counters(0, 0, 0, 0, 0, 0, 0, 0), 0.0), [NO_NUMBERS], None, [], [])

  function Current(s: Run): seq<U32>
  {
    s.spans[|s.spans| - 1]
  }

  function Grown(spans: seq<seq<U32>>, value: U32): (r: seq<seq<U32>>)
    requires spans != []
    ensures |r| == |spans|
  {
    spans[..|spans| - 1] + [spans[|spans| - 1] + [value]]
  }

  function AfterReceive(cfg: Config, s: Run, r: Record, at: real): Run
  {
    var d := Decide(cfg, s.link, r, at);
    var numbers := Lift(Current(s) + [r.rdt]);
    s.(link := d.link, spans := Grown(s.spans, r.rdt),
       pending := if d.deliver then Some(Handed(|s.spans| - 1, numbers[|numbers| - 1], at)) else None)
  }

  function AfterHandOver(s: Run, finite: bool, callback: Callback): Run
    requires s.pending.Some?
  {
    var p := s.pending.value;
    Run(Handover(s.link, p.at, finite, callback), s.spans, None,
        if finite then s.handed + [p] else s.handed,
        if finite && callback == Returned then s.successes + [p.at] else s.successes)
  }

  /** A step that is not possible changes nothing. */
  function Next(cfg: Config, s: Run, step: Step): Run
  {
    match step
    case Receive(r, at) => if s.pending.Some? then s else AfterReceive(cfg, s, r, at)
    case HandOver(finite, callback) => if s.pending.None? then s else AfterHandOver(s, finite, callback)
    case Bias => s.(link := s.link.(rdt := None), spans := s.spans + [NO_NUMBERS])
    case BeginSession =>
      if s.pending.Some? then s
      else s.(link := s.link.(rdt := None, ft := s.link.ft.(candidate := None)), spans := s.spans + [NO_NUMBERS])
    case Start => if s.pending.Some? then s else s.(link := s.link.(last := 0.0), successes := [])
  }

  function RunAll(cfg: Config, steps: seq<Step>): Run
  {
    if steps == [] then INITIAL
    else Next(cfg, RunAll(cfg, steps[..|steps| - 1]), steps[|steps| - 1])
  }

  // Counting.

  function Plus(a: Tally, b: Tally): Tally {
    Tally(a.received + b.received, a.lost + b.lost, a.duplicates + b.duplicates, a.late + b.late)
  }

  function Total(spans: seq<seq<U32>>): Tally {
    if spans == [] then NOTHING else Plus(Total(spans[..|spans| - 1]), SpanTally(spans[|spans| - 1]))
  }

  function TotalAdvance(spans: seq<seq<U32>>): int {
    if spans == [] then 0 else TotalAdvance(spans[..|spans| - 1]) + Advance(spans[|spans| - 1])
  }

  /** The baseline is that of the last span, and the counters are those of all spans. */
  predicate CountsOf(rdt: Option<U32>, tally: Tally, spans: seq<seq<U32>>) {
    spans != [] && rdt == BaselineOf(spans[|spans| - 1]) && tally == Total(spans)
  }

  predicate Counts(s: Run) { CountsOf(s.link.rdt, s.link.tally, s.spans) }

  lemma TotalSnoc(spans: seq<seq<U32>>, span: seq<U32>)
    ensures Total(spans + [span]) == Plus(Total(spans), SpanTally(span))
    ensures TotalAdvance(spans + [span]) == TotalAdvance(spans) + Advance(span)
  {
    assert (spans + [span])[..|spans|] == spans;
  }

  lemma CountedPlus(a: Tally, b: Tally, kind: Kind)
    ensures Plus(a, Counted(b, kind)) == Counted(Plus(a, b), kind)
  {
  }

  lemma CountsGrow(spans: seq<seq<U32>>, value: U32)
    requires spans != []
    ensures Total(Grown(spans, value)) ==
            Counted(Total(spans), KindOf(BaselineOf(spans[|spans| - 1]), value))
  {
    var init, last := spans[..|spans| - 1], spans[|spans| - 1];
    TotalSnoc(init, last + [value]);
    SpanTallySnoc(last, value);
    CountedPlus(Total(init), SpanTally(last), KindOf(BaselineOf(last), value));
  }

  /** A reset starts an empty span. */
  lemma TotalOfEmpty(spans: seq<seq<U32>>)
    ensures Total(spans + [NO_NUMBERS]) == Total(spans) && BaselineOf(NO_NUMBERS) == None
    ensures (spans + [NO_NUMBERS])[|spans|] == NO_NUMBERS
  {
    TotalSnoc(spans, NO_NUMBERS);
  }

  lemma ReceiveCounts(rdt: Option<U32>, tally: Tally, spans: seq<seq<U32>>, value: U32)
    requires CountsOf(rdt, tally, spans)
    ensures CountsOf(BaselineAfter(rdt, value), Counted(tally, KindOf(rdt, value)), Grown(spans, value))
  {
    CountsGrow(spans, value);
    BaselineFollows(spans[|spans| - 1], value);
  }

  lemma ResetCounts(rdt: Option<U32>, tally: Tally, spans: seq<seq<U32>>)
    requires CountsOf(rdt, tally, spans)
    ensures CountsOf(None, tally, spans + [NO_NUMBERS])
  {
    TotalOfEmpty(spans);
  }

  lemma StepCounts(cfg: Config, s: Run, step: Step)
    requires Counts(s)
    ensures Counts(Next(cfg, s, step))
  {
    ResetCounts(s.link.rdt, s.link.tally, s.spans);
    if step.Receive? {
      ReceiveCounts(s.link.rdt, s.link.tally, s.spans, step.record.rdt);
    }
  }

  lemma InitialCounts()
    ensures Counts(INITIAL)
  {
    TotalOfEmpty([]);
    assert [] + [NO_NUMBERS] == INITIAL.spans;
  }

  lemma {:induction false} TotalConserves(spans: seq<seq<U32>>)
    ensures var t := Total(spans);
            t.received + t.lost == TotalAdvance(spans) + t.duplicates + t.late
    decreases |spans|
  {
    if spans != [] {
      TotalConserves(spans[..|spans| - 1]);
      SpanConserves(spans[|spans| - 1]);
    }
  }

  /** Over any run, across wrap-around and resets: received plus lost is the unwrapped advance
      of every span, plus the duplicates and the records out of order. */
  lemma EveryRunConserves(cfg: Config, steps: seq<Step>)
    ensures var s := RunAll(cfg, steps);
            s.link.tally.received + s.link.tally.lost ==
            TotalAdvance(s.spans) + s.link.tally.duplicates + s.link.tally.late
  {
    EveryRunCounts(cfg, steps);
    TotalConserves(RunAll(cfg, steps).spans);
  }

  lemma {:induction false} EveryRunCounts(cfg: Config, steps: seq<Step>)
    ensures Counts(RunAll(cfg, steps))
    decreases |steps|
  {
    if steps == [] {
      InitialCounts();
    } else {
      EveryRunCounts(cfg, steps[..|steps| - 1]);
      StepCounts(cfg, RunAll(cfg, steps[..|steps| - 1]), steps[|steps| - 1]);
    }
  }

  // Order of delivery.

  predicate Before(a: Handed, b: Handed) {
    a.span < b.span || (a.span == b.span && a.number < b.number)
  }

  predicate Reached(spans: seq<seq<U32>>, h: Handed) {
    h.span < |spans| && spans[h.span] != [] && h.number <= Highest(Lift(spans[h.span]))
  }

  predicate InOrder(spans: seq<seq<U32>>, handed: seq<Handed>) {
    (forall h <- handed :: Reached(spans, h)) &&
    forall i, j :: 0 <= i < j < |handed| ==> Before(handed[i], handed[j])
  }

  predicate PendingLast(spans: seq<seq<U32>>, handed: seq<Handed>, pending: Option<Handed>) {
    pending.Some? ==> Reached(spans, pending.value) && forall h <- handed :: Before(h, pending.value)
  }

  predicate Orderly(s: Run) {
    Counts(s) && InOrder(s.spans, s.handed) && PendingLast(s.spans, s.handed, s.pending)
  }

  lemma ReachedGrows(spans: seq<seq<U32>>, value: U32, h: Handed)
    requires spans != [] && Reached(spans, h)
    ensures Reached(Grown(spans, value), h)
  {
    var last := spans[|spans| - 1];
    if h.span == |spans| - 1 {
      LiftSnoc(last, value);
      HighestSnoc(Lift(last), Nearest(Highest(Lift(last)), value));
    }
  }

  lemma FirstIsHighest(value: U32)
    ensures Lift([value]) == [value] && Highest([value]) == value
  {
    LiftSnoc([], value);
    HighestSnoc([], value);
    assert [] + [value] == [value];
  }

  lemma AheadOfHigh(last: seq<U32>, high: int, value: U32)
    requires last != [] && Highest(Lift(last)) == high && Nearest(high, value) > high
    ensures var numbers := Lift(last + [value]);
            Highest(numbers) == numbers[|last|] && high < numbers[|last|]
  {
    NextLift(last, high, value);
  }

  /** A number that is neither repeated nor late becomes the highest of its span. */
  lemma AheadIsHighest(last: seq<U32>, value: U32)
    requires var kind := KindOf(BaselineOf(last), value); kind != Duplicate && kind != OutOfOrder
    ensures var numbers := Lift(last + [value]);
            Highest(numbers) == numbers[|last|] && (last != [] ==> Highest(Lift(last)) < numbers[|last|])
  {
    if last == [] {
      FirstIsHighest(value);
      assert last + [value] == [value];
    } else {
      KindIsOrder(last, value);
      AheadOfHigh(last, Highest(Lift(last)), value);
    }
  }

  /** A record that may be delivered is ahead of everything received in its span. */
  lemma FreshIsAhead(spans: seq<seq<U32>>, value: U32, at: real, h: Handed)
    requires spans != []
    requires var kind := KindOf(BaselineOf(spans[|spans| - 1]), value); kind != Duplicate && kind != OutOfOrder
    ensures var last := spans[|spans| - 1];
            var numbers := Lift(last + [value]);
            var p := Handed(|spans| - 1, numbers[|last|], at);
            Reached(Grown(spans, value), p) && (Reached(spans, h) ==> Before(h, p))
  {
    AheadIsHighest(spans[|spans| - 1], value);
  }

  lemma HandedGrow(spans: seq<seq<U32>>, value: U32, handed: seq<Handed>)
    requires spans != [] && InOrder(spans, handed)
    ensures InOrder(Grown(spans, value), handed)
  {
    forall h <- handed
      ensures Reached(Grown(spans, value), h)
    {
      ReachedGrows(spans, value, h);
    }
  }

  lemma PendingAhead(spans: seq<seq<U32>>, value: U32, at: real, handed: seq<Handed>)
    requires spans != [] && InOrder(spans, handed)
    requires var kind := KindOf(BaselineOf(spans[|spans| - 1]), value); kind != Duplicate && kind != OutOfOrder
    ensures var numbers := Lift(spans[|spans| - 1] + [value]);
            var p := Handed(|spans| - 1, numbers[|numbers| - 1], at);
            PendingLast(Grown(spans, value), handed, Some(p))
  {
    var numbers := Lift(spans[|spans| - 1] + [value]);
    var p := Handed(|spans| - 1, numbers[|numbers| - 1], at);
    FreshIsAhead(spans, value, at, p);
    forall h <- handed
      ensures Before(h, p)
    {
      FreshIsAhead(spans, value, at, h);
    }
  }

  lemma DeliversOnlyAhead(cfg: Config, l: Link, r: Record, at: real)
    requires Decide(cfg, l, r, at).deliver
    ensures KindOf(l.rdt, r.rdt) != Duplicate && KindOf(l.rdt, r.rdt) != OutOfOrder
  {
  }

  lemma ReceiveOrders(cfg: Config, s: Run, r: Record, at: real)
    requires Orderly(s)
    ensures Orderly(AfterReceive(cfg, s, r, at))
  {
    var n := AfterReceive(cfg, s, r, at);
    ReceiveCounts(s.link.rdt, s.link.tally, s.spans, r.rdt);
    HandedGrow(s.spans, r.rdt, s.handed);
    if n.pending.Some? {
      DeliversOnlyAhead(cfg, s.link, r, at);
      PendingAhead(s.spans, r.rdt, at, s.handed);
    }
  }

  lemma StepOrders(cfg: Config, s: Run, step: Step)
    requires Orderly(s)
    ensures Orderly(Next(cfg, s, step))
  {
    if step.Receive? {
      if s.pending.None? {
        ReceiveOrders(cfg, s, step.record, step.at);
      }
    } else {
      StepCounts(cfg, s, step);
    }
  }

  /** Samples reach the callback with strictly increasing unwrapped numbers between resets. */
  lemma {:induction false} DeliveredInOrder(cfg: Config, steps: seq<Step>)
    ensures Orderly(RunAll(cfg, steps))
    ensures var handed := RunAll(cfg, steps).handed;
            forall i, j :: 0 <= i < j < |handed| ==>
              handed[i].span < handed[j].span ||
              (handed[i].span == handed[j].span && handed[i].number < handed[j].number)
    decreases |steps|
  {
    if steps == [] {
      InitialCounts();
    } else {
      DeliveredInOrder(cfg, steps[..|steps| - 1]);
      StepOrders(cfg, RunAll(cfg, steps[..|steps| - 1]), steps[|steps| - 1]);
    }
  }

  // The rate limit.

  predicate Spaced(times: seq<real>, period: real) {
    forall i :: 0 < i < |times| ==> times[i] - times[i - 1] >= period
  }

  /** What the program guarantees of two successes in a row: a success at time 0 is forgotten,
      because 0 is what it stores for no delivery yet. */
  predicate Limited(times: seq<real>, period: real) {
    forall i :: 0 < i < |times| ==> times[i - 1] == 0.0 || times[i] - times[i - 1] >= period
  }

  predicate Paced(cfg: Config, s: Run) {
    (s.link.last == if s.successes == [] then 0.0 else s.successes[|s.successes| - 1]) &&
    (cfg.limitHz > 0.0 ==>
       Limited(s.successes, Period(cfg)) &&
       (s.pending.Some? ==> s.link.last == 0.0 || s.pending.value.at - s.link.last >= Period(cfg)))
  }

  lemma StepPaces(cfg: Config, s: Run, step: Step)
    requires Paced(cfg, s)
    ensures Paced(cfg, Next(cfg, s, step))
  {
  }

  lemma {:induction false} EveryRunIsPaced(cfg: Config, steps: seq<Step>)
    ensures Paced(cfg, RunAll(cfg, steps))
    decreases |steps|
  {
    if steps != [] {
      EveryRunIsPaced(cfg, steps[..|steps| - 1]);
      StepPaces(cfg, RunAll(cfg, steps[..|steps| - 1]), steps[|steps| - 1]);
    }
  }

  lemma {:induction false} SpacedAdds(times: seq<real>, period: real, i: nat, j: nat)
    requires Spaced(times, period) && i <= j < |times|
    ensures times[j] - times[i] >= (j - i) as real * period
    decreases j
  {
    if i < j {
      SpacedAdds(times, period, i, j - 1);
      assert (j - i) as real * period == (j - 1 - i) as real * period + period;
    }
  }

  /** Any n of the times take at least n - 1 periods. */
  predicate Rated(times: seq<real>, period: real) {
    forall i, j :: 0 <= i <= j < |times| ==> times[j] - times[i] >= (j - i) as real * period
  }

  /** A success at time 0 is not followed early. */
  predicate ZeroKept(times: seq<real>, period: real) {
    forall i :: 0 < i < |times| && times[i - 1] == 0.0 ==> times[i] >= period
  }

  lemma LimitedIsRated(times: seq<real>, period: real)
    requires Limited(times, period)
    ensures Rated(times, period) <==> ZeroKept(times, period)
  {
    if ZeroKept(times, period) {
      assert Spaced(times, period);
      forall i, j | 0 <= i <= j < |times|
        ensures times[j] - times[i] >= (j - i) as real * period
      {
        SpacedAdds(times, period, i, j);
      }
    }
    if Rated(times, period) {
      forall i | 0 < i < |times| && times[i - 1] == 0.0
        ensures times[i] >= period
      {
        assert times[i] - times[i - 1] >= (i - (i - 1)) as real * period;
      }
    }
  }

  /** In every run with a rate limit, any n successful deliveries of one start take at least
      n - 1 periods if and only if no success at time 0 is followed by one within a period. */
  lemma RateIsLimited(cfg: Config, steps: seq<Step>)
    requires cfg.limitHz > 0.0
    ensures var times := RunAll(cfg, steps).successes;
            Rated(times, Period(cfg)) <==> ZeroKept(times, Period(cfg))
  {
    EveryRunIsPaced(cfg, steps);
    LimitedIsRated(RunAll(cfg, steps).successes, Period(cfg));
  }

  /** A record that moves both sequences ahead is delivered when no delivery is remembered. */
  lemma DeliversAhead(cfg: Config, s: Run, r: Record, at: real)
    requires s.pending.None? && r.severity == Fine && s.link.last == 0.0
    requires s.link.rdt.None? || (Delta(r.rdt, s.link.rdt.value) == 1 && s.link.ft.last.Some? &&
                                  Delta(r.ft, s.link.ft.last.value) == 1)
    requires s.link.rdt.None? ==> s.link.ft.last.None?
    ensures var n := Next(cfg, Next(cfg, s, Receive(r, at)), HandOver(true, Returned));
            n.pending.None? && n.successes == s.successes + [at] && n.link.last == at &&
            n.link.rdt == Some(r.rdt) && n.link.ft.last == Some(r.ft)
  {
  }

  lemma RunTwo(cfg: Config, steps: seq<Step>, x: Step, y: Step)
    ensures RunAll(cfg, steps + [x, y]) == Next(cfg, Next(cfg, RunAll(cfg, steps), x), y)
  {
    assert (steps + [x, y])[..|steps| + 1] == steps + [x] && (steps + [x])[..|steps|] == steps;
  }

  /** After a success at time 0 the limit is off: the next record is delivered at any time,
      whatever the limit. */
  lemma DeliveryAtTimeZero(cfg: Config, at: real)
    ensures var steps := [Receive(Record(1, 1, Fine), 0.0), HandOver(true, Returned),
                          Receive(Record(2, 2, Fine), at), HandOver(true, Returned)];
            RunAll(cfg, steps).successes == [0.0, at]
  {
    var a, b := Receive(Record(1, 1, Fine), 0.0), Receive(Record(2, 2, Fine), at);
    var h := HandOver(true, Returned);
    RunTwo(cfg, [], a, h);
    RunTwo(cfg, [a, h], b, h);
    assert [] + [a, h] == [a, h] && [a, h] + [b, h] == [a, h, b, h];
    DeliversAhead(cfg, INITIAL, a.record, a.at);
    DeliversAhead(cfg, RunAll(cfg, [a, h]), b.record, b.at);
  }
}
