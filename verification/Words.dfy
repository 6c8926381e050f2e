/** Unsigned machine words as naturals: width, bitwise and with a mask, and the
    wrap-around facts that the lock-free code depends on. */
module Words {

  const WORD: nat := 0x1_0000_0000_0000_0000

  type Word = w: nat | w < WORD

  function Pow2(k: nat): (p: nat)
    ensures p > 0
  {
    if k == 0 then 1 else 2 * Pow2(k - 1)
  }

  /** Bitwise conjunction of two naturals. */
  function BitAnd(a: nat, b: nat): nat
    decreases a
  {
    if a == 0 || b == 0 then 0
    else (if a % 2 == 1 && b % 2 == 1 then 1 else 0) + 2 * BitAnd(a / 2, b / 2)
  }

  /** The machine increment of a counter. */
  function Succ(w: Word): Word {
    if w + 1 == WORD then 0 else w + 1
  }

  /** The machine difference of two counters. */
  function Minus(a: Word, b: Word): Word {
    if a >= b then a - b else a + WORD - b
  }

  lemma HalvingMod(a: nat, m: nat)
    requires m > 0
    ensures a % (2 * m) == a % 2 + 2 * (a / 2 % m)
  {
    var q, r := a / 2 / m, a / 2 % m;
    assert a / 2 == q * m + r;
    assert a == q * (2 * m) + (a % 2 + 2 * r) by {
      assert q * (2 * m) == 2 * (q * m);
    }
    RemainderIs(a, 2 * m, q, a % 2 + 2 * r);
  }

  /** A positive multiple of m is at least m. */
  lemma {:induction false} MultipleIsFar(k: int, m: int)
    requires k > 0 && m >= 0
    ensures k * m >= m
    decreases k
  {
    if k > 1 {
      MultipleIsFar(k - 1, m);
      assert k * m == (k - 1) * m + m;
    }
  }

  lemma RemainderIs(a: nat, m: nat, q: nat, r: nat)
    requires r < m && a == q * m + r
    ensures a % m == r && a / m == q
  {
    var k := a / m - q;
    assert a == (a / m) * m + a % m;
    assert k * m == (a / m) * m - q * m;
    if k > 0 {
      MultipleIsFar(k, m);
    } else if k < 0 {
      MultipleIsFar(-k, m);
    }
  }

  lemma Regroup(q: nat, cap: nat, m: nat, c: nat)
    ensures q * (cap * m) + c * cap == (q * m + c) * cap
  {
    assert q * (cap * m) == (q * m) * cap;
    assert (q * m + c) * cap == (q * m) * cap + c * cap;
  }

  lemma RemainderOfRemainder(n: nat, cap: nat, big: nat, m: nat)
    requires cap > 0 && m > 0 && big == cap * m && big > 0
    ensures n % big % cap == n % cap
  {
    var q, w := n / big, n % big;
    var c, r := w / cap, w % cap;
    assert n == q * big + w;
    assert w == c * cap + r;
    Regroup(q, cap, m, c);
    RemainderIs(n, cap, q * m + c, r);
  }

  /** Masking with the low k bits is the remainder modulo 2^k. */
  lemma {:induction false} LowBits(a: nat, k: nat)
    ensures BitAnd(a, Pow2(k) - 1) == a % Pow2(k)
    decreases k
  {
    if k == 0 {
      assert Pow2(k) - 1 == 0;
      assert a % 1 == 0;
    } else {
      HalvingMod(a, Pow2(k - 1));
      LowBits(a / 2, k - 1);
      assert (Pow2(k) - 1) % 2 == 1 && (Pow2(k) - 1) / 2 == Pow2(k - 1) - 1;
      if a == 0 {
        assert 0 % Pow2(k) == 0;
      }
    }
  }

  /** Testing bit k of a number below 2^(k+1) is comparing it with 2^k. */
  lemma {:induction false} TopBit(a: nat, k: nat)
    requires a < Pow2(k + 1)
    ensures BitAnd(a, Pow2(k)) == if a >= Pow2(k) then Pow2(k) else 0
    decreases k
  {
    if k == 0 {
      assert Pow2(0) == 1 && Pow2(1) == 2;
      if a == 1 { assert BitAnd(0, 0) == 0; }
    } else {
      TopBit(a / 2, k - 1);
    }
  }

  lemma {:induction false} Pow2Sum(a: nat, b: nat)
    ensures Pow2(a + b) == Pow2(a) * Pow2(b)
    decreases b
  {
    if b > 0 {
      Pow2Sum(a, b - 1);
      assert Pow2(a + b) == 2 * Pow2(a + (b - 1));
      assert 2 * (Pow2(a) * Pow2(b - 1)) == Pow2(a) * (2 * Pow2(b - 1));
    } else {
      assert a + b == a;
    }
  }

  lemma WordIsPow2()
    ensures Pow2(64) == WORD && Pow2(63) == WORD / 2
  {
    assert Pow2(8) == 0x100;
    Pow2Sum(8, 8);
    assert Pow2(16) == 0x1_0000;
    Pow2Sum(16, 16);
    assert Pow2(32) == 0x1_0000_0000;
    Pow2Sum(32, 32);
    assert Pow2(64) == 2 * Pow2(63);
  }

  /** A counter kept modulo 2^64 still selects the right slot of a ring of 2^k entries. */
  lemma WrapKeepsSlot(n: nat, k: nat)
    requires k <= 63
    ensures BitAnd(n % WORD, Pow2(k) - 1) == n % Pow2(k)
  {
    LowBits(n % WORD, k);
    WordIsPow2();
    Pow2Sum(k, 64 - k);
    RemainderOfRemainder(n, Pow2(k), WORD, Pow2(64 - k));
  }

  lemma WrapSucc(n: nat)
    ensures Succ(n % WORD) == (n + 1) % WORD
  {
  }

  lemma WrapMinus(a: nat, b: nat)
    requires b <= a
    ensures Minus(a % WORD, b % WORD) == (a - b) % WORD
  {
  }
}
