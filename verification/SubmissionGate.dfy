/** The admission gate shared by any number of callers and one controller: each step is
    one atomic access to the word. */
module SubmissionGate {
  import opened Words
  import opened GateWord

  /** A caller inside enter() remembers the word it last observed; a caller whose
      entry was accepted holds it until release. */
  datatype Caller = Observed(seen: Word) | Holding

  datatype Gate = Gate(word: Word, callers: map<nat, Caller>)

  datatype Step =
    | Load(who: nat)
    | TryEnter(who: nat, spurious: bool)
    | Release(who: nat)
    | Close
    | TryOpen

  ghost function Holders(g: Gate): set<nat> {
    set who | who in g.callers && g.callers[who].Holding?
  }

  /** One atomic access. A step whose caller is elsewhere leaves the gate as it is. */
  function Next(g: Gate, step: Step): Gate {
    match step
    case Load(who) =>
      if who in g.callers then g else g.(callers := g.callers[who := Observed(g.word)])
    case TryEnter(who, spurious) =>
      if who !in g.callers || g.callers[who].Holding? then g
      else
        var seen := g.callers[who].seen;
        if !IsOpen(seen) || Count(seen) == COUNT_MASK then g.(callers := g.callers - {who})
        else if g.word != seen || spurious then g.(callers := g.callers[who := Observed(g.word)])
        else
          EnterWord(seen);
          Gate(g.word + 1, g.callers[who := Holding])
    case Release(who) =>
      if who !in g.callers || !g.callers[who].Holding? then g
      else Gate(FetchSubOne(g.word), g.callers - {who})
    case Close => g.(word := FetchAnd(g.word))
    case TryOpen => if g.word == 0 then g.(word := OPEN_BIT) else g
  }

  function Run(g: Gate, steps: seq<Step>): Gate
    decreases |steps|
  {
    if steps == [] then g else Run(Next(g, steps[0]), steps[1..])
  }

  /** The gate as it is constructed: closed, with nobody inside. */
  const INITIAL := Gate(0, map[])

  function After(steps: seq<Step>): Gate { Run(INITIAL, steps) }

  ghost predicate Inv(g: Gate) {
    Count(g.word) == |Holders(g)|
  }

  /** The compare-and-swap in enter() succeeds: the word is the observed open word. */
  predicate Enters(g: Gate, who: nat, spurious: bool) {
    && who in g.callers
    && g.callers[who] == Observed(g.word)
    && IsOpen(g.word) && Count(g.word) != COUNT_MASK
    && !spurious
  }

  lemma EnteringHolders(g: Gate, who: nat, spurious: bool)
    ensures var g' := Next(g, TryEnter(who, spurious));
            if Enters(g, who, spurious)
            then g'.word == g.word + 1 && who !in Holders(g) && Holders(g') == Holders(g) + {who}
            else g'.word == g.word && Holders(g') == Holders(g)
  {
    var g' := Next(g, TryEnter(who, spurious));
    if Enters(g, who, spurious) {
      assert Holders(g') == Holders(g) + {who};
    } else {
      assert Holders(g') == Holders(g);
    }
  }

  lemma EnteringKeepsInv(g: Gate, who: nat, spurious: bool)
    requires Inv(g)
    ensures Inv(Next(g, TryEnter(who, spurious)))
  {
    EnteringHolders(g, who, spurious);
    if Enters(g, who, spurious) {
      EnterWord(g.word);
    }
  }

  lemma ReleaseKeepsInv(g: Gate, who: nat)
    requires Inv(g)
    ensures Inv(Next(g, Release(who)))
  {
    var g' := Next(g, Release(who));
    if who in Holders(g) {
      assert Holders(g') == Holders(g) - {who};
      LeaveWord(g.word);
    }
  }

  lemma StepKeepsInv(g: Gate, step: Step)
    requires Inv(g)
    ensures Inv(Next(g, step))
  {
    match step
    case Load(who) => assert Holders(Next(g, step)) == Holders(g);
    case TryEnter(who, spurious) => EnteringKeepsInv(g, who, spurious);
    case Release(who) => ReleaseKeepsInv(g, who);
    case Close => CloseWord(g.word);
    case TryOpen => OpenWord();
  }

  lemma InitialInv()
    ensures Inv(INITIAL)
  {
    OpenWord();
    assert Holders(INITIAL) == {};
  }

  lemma {:induction false} RunKeepsInv(g: Gate, steps: seq<Step>)
    requires Inv(g)
    ensures Inv(Run(g, steps))
    decreases |steps|
  {
    if steps != [] {
      StepKeepsInv(g, steps[0]);
      RunKeepsInv(Next(g, steps[0]), steps[1..]);
    }
  }

  /** In every run the low 63 bits are exactly the number of accepted, unreleased
      entries, so the count neither borrows from nor carries into the open bit. */
  lemma CountIsLiveEntries(steps: seq<Step>)
    ensures Count(After(steps).word) == |Holders(After(steps))|
  {
    InitialInv();
    RunKeepsInv(INITIAL, steps);
  }

  ghost predicate ClosedAndDrained(g: Gate) {
    !IsOpen(g.word) && Count(g.word) == 0
  }

  lemma DrainedStep(g: Gate, step: Step)
    requires Inv(g) && ClosedAndDrained(g) && step != TryOpen
    ensures Next(g, step).word == g.word
  {
    assert Holders(g) == {};
    OpenWord();
    if step.Close? {
      CloseWord(g.word);
    }
    if step.Release? {
      assert step.who !in Holders(g);
    }
  }

  lemma {:induction false} RunStaysDrained(g: Gate, steps: seq<Step>)
    requires Inv(g) && ClosedAndDrained(g)
    requires TryOpen !in steps
    ensures ClosedAndDrained(Run(g, steps)) && Holders(Run(g, steps)) == {}
    decreases |steps|
  {
    assert Holders(g) == {};
    if steps != [] {
      StepKeepsInv(g, steps[0]);
      DrainedStep(g, steps[0]);
      RunStaysDrained(Next(g, steps[0]), steps[1..]);
    }
  }

  /** Once the gate is observed closed with count zero, no caller holds an entry and
      none obtains one in any continuation that does not open the gate, whatever
      stale word a caller inside enter() still remembers. */
  lemma DrainedStays(before: seq<Step>, after: seq<Step>)
    requires ClosedAndDrained(After(before)) && TryOpen !in after
    ensures var g := Run(After(before), after); ClosedAndDrained(g) && Holders(g) == {}
  {
    InitialInv();
    RunKeepsInv(INITIAL, before);
    RunStaysDrained(After(before), after);
  }

  /** Opening succeeds exactly when the gate is closed and every entry has left. */
  lemma OpensExactlyWhenDrained(steps: seq<Step>)
    ensures var g := After(steps);
            && (Next(g, TryOpen) != g <==> ClosedAndDrained(g))
            && (ClosedAndDrained(g) ==> Next(g, TryOpen) == g.(word := OPEN_BIT))
            && (ClosedAndDrained(g) <==> !IsOpen(g.word) && Holders(g) == {})
  {
    InitialInv();
    RunKeepsInv(INITIAL, steps);
    OpenWord();
  }

  /** After close, only releases change the word, each one lowering the count, so
      the number of releases left is the number of holders. */
  lemma CloseOnlyStopsEntry(before: seq<Step>, step: Step)
    requires !IsOpen(After(before).word) && step != TryOpen
    ensures var g, n := After(before), Next(After(before), step);
            && !IsOpen(n.word)
            && Count(n.word) == |Holders(n)|
            && Holders(n) == Holders(g) - (if step.Release? then {step.who} else {})
  {
    var g := After(before);
    InitialInv();
    RunKeepsInv(INITIAL, before);
    StepKeepsInv(g, step);
    CloseWord(g.word);
    if step.Release? && step.who in Holders(g) {
      LeaveWord(g.word);
    }
    if step.TryEnter? {
      EnteringHolders(g, step.who, step.spurious);
    }
  }

  /** An entry into an open gate that has room succeeds in two steps, when nothing comes between
      and the compare-and-swap does not fail spuriously. */
  lemma OpenGateAdmits(steps: seq<Step>, who: nat)
    requires var g := After(steps); IsOpen(g.word) && Count(g.word) < 0x7fff_ffff_ffff_ffff && who !in g.callers
    ensures var g, n := After(steps), Run(After(steps), [Load(who), TryEnter(who, false)]);
            Holders(n) == Holders(g) + {who} && IsOpen(n.word) && Count(n.word) == Count(g.word) + 1
  {
    var g := After(steps);
    var a := Next(g, Load(who));
    RunTwo(g, Load(who), TryEnter(who, false));
    assert Holders(a) == Holders(g);
    EnteringHolders(a, who, false);
    EnterWord(g.word);
  }

  lemma RunTwo(g: Gate, a: Step, b: Step)
    ensures Run(g, [a, b]) == Next(Next(g, a), b)
  {
    assert [a, b][1..] == [b] && [b][1..] == [];
    assert Run(Next(g, a), [b]) == Next(Next(g, a), b);
  }

  /** An entry into a closed gate is turned away, and nothing is left of it. */
  lemma ClosedGateRefuses(g: Gate, who: nat)
    requires !IsOpen(g.word) && who !in g.callers
    ensures Run(g, [Load(who), TryEnter(who, false)]) == g
  {
    RunTwo(g, Load(who), TryEnter(who, false));
    assert g.callers[who := Observed(g.word)] - {who} == g.callers;
  }

  /** A holder that leaves gives its entry back. */
  lemma ReleaseLeaves(steps: seq<Step>, who: nat)
    requires who in Holders(After(steps))
    ensures var g, n := After(steps), Next(After(steps), Release(who));
            Holders(n) == Holders(g) - {who} && Count(n.word) == Count(g.word) - 1 &&
            (IsOpen(n.word) <==> IsOpen(g.word))
  {
    var g := After(steps);
    InitialInv();
    RunKeepsInv(INITIAL, steps);
    LeaveWord(g.word);
    assert Holders(Next(g, Release(who))) == Holders(g) - {who};
  }
}
