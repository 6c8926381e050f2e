/** The decimal form in which the protocol carries 64-bit times. */
module CanonicalDecimal {
  import opened Wrappers
  import opened SensorHost

  const MAX_I64: nat := 0x7fff_ffff_ffff_ffff

  function Printed(n: nat): string {
    if n < 10 then [('0' as int + n) as char] else Printed(n / 10) + [('0' as int + n % 10) as char]
  }

  predicate Canonical(text: string) {
    text != "" && AllDigits(text) && (|text| > 1 ==> text[0] != '0')
  }

  /** What a field holds: None for a string that is not canonical or too large. */
  function Field(text: string): Option<nat> {
    if 1 <= |text| <= 19 && Canonical(text) && Value(text) <= MAX_I64 then Some(Value(text)) else None
  }

  method CanonicalI64(text: string) returns (r: Option<nat>)
    ensures r == Field(text)
  {
    if text == "" || |text| > 19 {
      return None;
    }
    if (|text| > 1 && text[0] == '0') || exists c <- text :: !Digit(c) {
      return None;
    }
    var result := 0;
    for i := 0 to |text|
      invariant result == Value(text[..i]) <= MAX_I64
    {
      var digit := DigitValue(text[i]);
      assert text[..i + 1][..i] == text[..i];
      if result > (MAX_I64 - digit) / 10 {
        GrowsWithDigits(text, i + 1);
        return None;
      }
      result := result * 10 + digit;
    }
    assert text[..|text|] == text;
    return Some(result);
  }

  lemma {:induction false} GrowsWithDigits(text: string, i: nat)
    requires i <= |text| && AllDigits(text)
    ensures AllDigits(text[..i]) && Value(text[..i]) <= Value(text)
    decreases |text|
  {
    if i == |text| {
      assert text[..i] == text;
    } else {
      var init := text[..|text| - 1];
      assert init[..i] == text[..i];
      GrowsWithDigits(init, i);
    }
  }

  lemma {:induction false} PrintedIsCanonical(n: nat)
    ensures Canonical(Printed(n)) && Value(Printed(n)) == n
    ensures n > 0 ==> Printed(n)[0] != '0'
    decreases n
  {
    var s := Printed(n);
    if n < 10 {
      assert s[..0] == "";
    } else {
      PrintedIsCanonical(n / 10);
      assert s[..|s| - 1] == Printed(n / 10);
    }
  }

  lemma {:induction false} CanonicalIsPrinted(text: string)
    requires Canonical(text)
    ensures Printed(Value(text)) == text
    ensures |text| > 1 ==> Value(text) >= 10
    decreases |text|
  {
    var init, last := text[..|text| - 1], text[|text| - 1];
    assert text == init + [last];
    assert last in text;
    if init == "" {
      assert Value(init) == 0;
    } else {
      assert init[0] == text[0];
      CanonicalIsPrinted(init);
      FirstDigitCounts(init);
    }
  }

  /** A number without a leading zero is positive. */
  lemma {:induction false} FirstDigitCounts(text: string)
    requires text != "" && AllDigits(text) && text[0] != '0'
    ensures Value(text) > 0
    decreases |text|
  {
    assert text[0] in text;
    if |text| > 1 {
      FirstDigitCounts(text[..|text| - 1]);
    }
  }

  function Power10(k: nat): nat { if k == 0 then 1 else 10 * Power10(k - 1) }

  /** A canonical number of several digits is at least the power of ten of its length. */
  lemma {:induction false} LongIsLarge(text: string)
    requires text != "" && AllDigits(text) && text[0] != '0'
    ensures Value(text) >= Power10(|text| - 1)
    decreases |text|
  {
    assert text[0] in text;
    if |text| == 1 {
      assert text[..0] == "";
    } else {
      LongIsLarge(text[..|text| - 1]);
    }
  }

  lemma {:induction false} PowerGrows(j: nat, k: nat)
    requires j <= k
    ensures Power10(j) <= Power10(k)
    decreases k
  {
    if j < k {
      PowerGrows(j, k - 1);
    }
  }

  lemma NineteenDigits()
    ensures Power10(19) > MAX_I64
  {
    assert Power10(5) == 100000;
    assert Power10(10) == 100000 * Power10(5);
    assert Power10(15) == 100000 * Power10(10);
    assert Power10(19) == 10000 * Power10(15);
  }

  /** The limit of 19 characters refuses no number of the range. */
  lemma InRangeIsShort(text: string)
    requires Canonical(text) && Value(text) <= MAX_I64
    ensures |text| <= 19
  {
    if |text| > 19 {
      LongIsLarge(text);
      NineteenDigits();
      PowerGrows(19, |text| - 1);
    }
  }

  /** The field reader and the printer are inverse on the nonnegative 64-bit range: a field
      holds a number if and only if it is the print of that number and the number is in range. */
  lemma FieldRoundTrip(text: string, n: nat)
    ensures Field(text) == Some(n) <==> n <= MAX_I64 && text == Printed(n)
  {
    PrintedIsCanonical(n);
    if Canonical(text) {
      CanonicalIsPrinted(text);
      if Value(text) <= MAX_I64 {
        InRangeIsShort(text);
      }
    }
  }
}
