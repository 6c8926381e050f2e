/** The admission word: an open bit above a 63-bit count of live entries, and what each
    atomic operation on the word means for the two. */
module GateWord {
  import opened Words

  const OPEN_BIT: nat := 0x8000_0000_0000_0000
  const COUNT_MASK: nat := OPEN_BIT - 1

  predicate IsOpen(w: Word) { BitAnd(w, OPEN_BIT) != 0 }

  function Count(w: Word): nat { BitAnd(w, COUNT_MASK) }

  function FetchAnd(w: Word): Word {
    LowBits(w, 63);
    WordIsPow2();
    BitAnd(w, COUNT_MASK)
  }

  function FetchSubOne(w: Word): Word { Minus(w, 1) }

  /** What the bit operations mean: the word is an open flag and a count side by side. */
  lemma Layout(w: Word)
    ensures IsOpen(w) <==> w >= OPEN_BIT
    ensures Count(w) == w % OPEN_BIT == FetchAnd(w)
    ensures Count(w) <= COUNT_MASK
    ensures w == (if IsOpen(w) then OPEN_BIT else 0) + Count(w)
  {
    OpenLayout(w);
    CountLayout(w);
  }

  lemma OpenLayout(w: Word)
    ensures IsOpen(w) <==> w >= OPEN_BIT
  {
    WordIsPow2();
    TopBit(w, 63);
  }

  lemma CountLayout(w: Word)
    ensures Count(w) == w % OPEN_BIT
  {
    WordIsPow2();
    LowBits(w, 63);
  }

  lemma CloseWord(w: Word)
    ensures !IsOpen(FetchAnd(w)) && Count(FetchAnd(w)) == Count(w)
  {
    Layout(w);
    Layout(FetchAnd(w));
  }

  lemma EnterWord(w: Word)
    requires IsOpen(w) && Count(w) != COUNT_MASK
    ensures w + 1 < WORD && IsOpen(w + 1) && Count(w + 1) == Count(w) + 1
  {
    Layout(w);
    Layout(w + 1);
  }

  lemma LeaveWord(w: Word)
    requires Count(w) > 0
    ensures IsOpen(FetchSubOne(w)) == IsOpen(w) && Count(FetchSubOne(w)) == Count(w) - 1
  {
    Layout(w);
    Layout(FetchSubOne(w));
  }

  lemma OpenWord()
    ensures !IsOpen(0) && Count(0) == 0
    ensures IsOpen(OPEN_BIT) && Count(OPEN_BIT) == 0
    ensures forall w: Word :: !IsOpen(w) && Count(w) == 0 ==> w == 0
  {
    Layout(0);
    Layout(OPEN_BIT);
    forall w: Word | !IsOpen(w) && Count(w) == 0
      ensures w == 0
    {
      Layout(w);
    }
  }

  /** The word read as its two fields. */
  datatype Admission = Admission(open: bool, live: nat) {
    function Closed(): Admission { this.(open := false) }
    function Left(): Admission { if live > 0 then this.(live := live - 1) else this }
    function Entered(): Admission { this.(live := live + 1) }
    predicate Drained() { live == 0 }
  }

  const SHUT := Admission(false, 0)
  const OPENED := Admission(true, 0)

  function Decode(w: Word): Admission { Admission(IsOpen(w), Count(w)) }

  /** Every operation on the word is the operation of the same name on its fields, and a
      compare-and-swap sees equal words exactly when it would see equal fields. */
  lemma WordRefinesAdmission(w: Word, seen: Word)
    ensures w == seen <==> Decode(w) == Decode(seen)
    ensures Decode(w).live <= COUNT_MASK
    ensures Decode(FetchAnd(w)) == Decode(w).Closed()
    ensures IsOpen(w) && Count(w) != COUNT_MASK ==>
              w + 1 < WORD && Decode(w + 1) == Decode(w).Entered()
    ensures Count(w) > 0 ==> Decode(FetchSubOne(w)) == Decode(w).Left()
    ensures w == 0 <==> Decode(w) == SHUT
    ensures Decode(OPEN_BIT) == OPENED
  {
    Layout(w);
    Layout(seen);
    CloseWord(w);
    if IsOpen(w) && Count(w) != COUNT_MASK {
      EnterWord(w);
    }
    if Count(w) > 0 {
      LeaveWord(w);
    }
    OpenWord();
  }
}
