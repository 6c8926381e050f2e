/** Sensor host names: the grammar, the companion's scanning validators, and the validator the
    application writes with regular expressions, which accept the same strings. */
module SensorHost {

  predicate Digit(c: char) { '0' <= c <= '9' }

  predicate Alphanumeric(c: char) { Digit(c) || 'a' <= c <= 'z' || 'A' <= c <= 'Z' }

  predicate LabelChar(c: char) { Alphanumeric(c) || c == '-' }

  predicate AllDigits(s: string) { forall c <- s :: Digit(c) }

  predicate Numeric(s: string) { forall c <- s :: Digit(c) || c == '.' }

  /** The position of the first dot from a start, or the length. */
  function Dot(s: string, start: nat): (n: nat)
    requires start <= |s|
    ensures start <= n <= |s| && (n < |s| ==> s[n] == '.')
    decreases |s| - start
  {
    if start == |s| || s[start] == '.' then start else Dot(s, start + 1)
  }

  /** The parts between dots, from a start. */
  function PartsFrom(s: string, start: nat): (r: seq<string>)
    requires start <= |s|
    ensures r != []
    decreases |s| - start
  {
    var n := Dot(s, start);
    if n == |s| then [s[start..]] else [s[start..n]] + PartsFrom(s, n + 1)
  }

  function Parts(s: string): (r: seq<string>)
    ensures r != []
  {
    PartsFrom(s, 0)
  }

  function DotJoined(parts: seq<string>): string
    requires parts != []
    decreases |parts|
  {
    if |parts| == 1 then parts[0] else parts[0] + "." + DotJoined(parts[1..])
  }

  lemma {:induction false} NoDotBefore(s: string, start: nat)
    requires start <= |s|
    ensures '.' !in s[start..Dot(s, start)]
    decreases |s| - start
  {
    var n := Dot(s, start);
    if start < n {
      NoDotBefore(s, start + 1);
      assert s[start..n] == [s[start]] + s[start + 1..n];
    }
  }

  lemma JoinFirst(p: string, more: seq<string>)
    requires more != []
    ensures DotJoined([p] + more) == p + "." + DotJoined(more)
  {
    assert ([p] + more)[1..] == more;
  }

  /** The parts are what a dot-joined string is made of. */
  lemma {:induction false} PartsJoin(s: string, start: nat)
    requires start <= |s|
    ensures DotJoined(PartsFrom(s, start)) == s[start..]
    ensures forall p <- PartsFrom(s, start) :: '.' !in p
    decreases |s| - start
  {
    var n := Dot(s, start);
    NoDotBefore(s, start);
    if n < |s| {
      PartsJoin(s, n + 1);
      JoinFirst(s[start..n], PartsFrom(s, n + 1));
      assert s[start..] == s[start..n] + "." + s[n + 1..];
    } else {
      assert s[start..] == s[start..n];
    }
  }

  function DigitValue(c: char): nat
    requires Digit(c)
  {
    c as int - '0' as int
  }

  function Value(digits: string): nat
    requires AllDigits(digits)
  {
    if digits == "" then 0
    else
      var last := digits[|digits| - 1];
      assert last in digits;
      Value(digits[..|digits| - 1]) * 10 + DigitValue(last)
  }

  // The grammar.

  /** A decimal number up to 255 without leading zeros. */
  predicate Octet(s: string) {
    1 <= |s| <= 3 && AllDigits(s) && (|s| > 1 ==> s[0] != '0') && Value(s) <= 255
  }

  /** One to 63 letters, digits and inner hyphens. */
  predicate Label(s: string) {
    1 <= |s| <= 63 && (forall c <- s :: LabelChar(c)) && s[0] != '-' && s[|s| - 1] != '-'
  }

  predicate Octets(parts: seq<string>) { forall p <- parts :: Octet(p) }

  predicate Labels(parts: seq<string>) { forall p <- parts :: Label(p) }

  predicate Ipv4(s: string) { |Parts(s)| == 4 && Octets(Parts(s)) }

  predicate DnsName(s: string) { |s| <= 253 && Labels(Parts(s)) }

  predicate Host(s: string) { if Numeric(s) then Ipv4(s) else DnsName(s) }

  // The companion's validators.

  method ValidOctet(token: string) returns (ok: bool)
    ensures ok <==> Octet(token)
  {
    if token == "" || |token| > 3 || (|token| > 1 && token[0] == '0') || exists c <- token :: !Digit(c) {
      return false;
    }
    var value := 0;
    for i := 0 to |token|
      invariant value == Value(token[..i])
    {
      assert token[..i + 1][..i] == token[..i];
      value := value * 10 + DigitValue(token[i]);
    }
    assert token[..|token|] == token;
    return value <= 255;
  }

  lemma FirstPart(p: string, more: seq<string>)
    ensures Octets([p] + more) <==> Octet(p) && Octets(more)
    ensures Labels([p] + more) <==> Label(p) && Labels(more)
    ensures Octets([p]) <==> Octet(p)
    ensures Labels([p]) <==> Label(p)
  {
    assert ([p] + more)[0] == p;
  }

  lemma PartsUnfold(s: string, start: nat)
    requires start <= |s|
    ensures var n := Dot(s, start);
            PartsFrom(s, start) == if n < |s| then [s[start..n]] + PartsFrom(s, n + 1) else [s[start..n]]
  {
    assert s[start..|s|] == s[start..];
  }

  /** The first part and the others. */
  lemma PartsStep(s: string, start: nat)
    requires start <= |s|
    ensures var n := Dot(s, start);
            (Octets(PartsFrom(s, start)) <==> Octet(s[start..n]) && (n < |s| ==> Octets(PartsFrom(s, n + 1)))) &&
            (Labels(PartsFrom(s, start)) <==> Label(s[start..n]) && (n < |s| ==> Labels(PartsFrom(s, n + 1)))) &&
            |PartsFrom(s, start)| == 1 + if n < |s| then |PartsFrom(s, n + 1)| else 0
  {
    var n := Dot(s, start);
    PartsUnfold(s, start);
    if n < |s| {
      FirstPart(s[start..n], PartsFrom(s, n + 1));
    } else {
      FirstPart(s[start..n], []);
    }
  }

  method ValidIpv4(host: string) returns (ok: bool)
    ensures ok <==> Ipv4(host)
  {
    var start := 0;
    for part := 0 to 4
      invariant start <= |host|
      invariant Ipv4(host) <==>
                part == 4 || (|PartsFrom(host, start)| == 4 - part && Octets(PartsFrom(host, start)))
    {
      var end := Dot(host, start);
      PartsStep(host, start);
      var valid := ValidOctet(host[start..end]);
      if !valid {
        return false;
      }
      if part < 3 {
        if end == |host| {
          return false;
        }
        start := end + 1;
      } else if end < |host| {
        return false;
      }
    }
    return true;
  }

  method ValidLabel(name: string) returns (ok: bool)
    ensures ok <==> Label(name)
  {
    return name != "" && |name| <= 63 && name[0] != '-' && name[|name| - 1] != '-' &&
           forall c <- name :: LabelChar(c);
  }

  method ValidDnsName(host: string) returns (ok: bool)
    ensures ok <==> DnsName(host)
  {
    if host == "" || |host| > 253 || host[0] == '.' || host[|host| - 1] == '.' {
      DotAtEnd(host, 0);
      return false;
    }
    var start := 0;
    while start < |host|
      invariant start < |host|
      invariant Labels(Parts(host)) <==> Labels(PartsFrom(host, start))
      decreases |host| - start
    {
      var end := Dot(host, start);
      PartsStep(host, start);
      var valid := ValidLabel(host[start..end]);
      if !valid {
        return false;
      }
      if end == |host| {
        return true;
      }
      start := end + 1;
    }
  }

  /** A string that is empty or starts or ends with a dot has an empty part. */
  lemma {:induction false} DotAtEnd(s: string, start: nat)
    requires start <= |s|
    ensures start == |s| || s[start] == '.' || s[|s| - 1] == '.' ==> "" in PartsFrom(s, start)
    decreases |s| - start
  {
    var n := Dot(s, start);
    if n < |s| {
      DotAtEnd(s, n + 1);
    } else if start < n {
      NoDotBefore(s, start);
      assert s[start..n][n - 1 - start] == s[n - 1];
    }
    assert n == start ==> PartsFrom(s, start)[0] == s[start..n] == "";
  }

  method ValidSensorHost(host: string) returns (ok: bool)
    ensures ok <==> Host(host)
  {
    if forall c <- host :: Digit(c) || c == '.' {
      ok := ValidIpv4(host);
    } else {
      ok := ValidDnsName(host);
    }
  }

  // The application's validator.

  /** The expression ^(0|[1-9][0-9]{0,2})$. */
  predicate MatchesOctet(s: string) {
    s == "0" || (1 <= |s| <= 3 && '1' <= s[0] <= '9' && AllDigits(s[1..]))
  }

  lemma MatchedDigits(s: string)
    requires MatchesOctet(s)
    ensures AllDigits(s)
  {
    assert s == [s[0]] + s[1..];
  }

  predicate SchemaOctet(s: string) {
    MatchesOctet(s) && (MatchedDigits(s); Value(s) <= 255)
  }

  /** The expression ^[A-Za-z0-9](?:[A-Za-z0-9-]{0,61}[A-Za-z0-9])?$. */
  predicate MatchesLabel(s: string) {
    s != "" && Alphanumeric(s[0]) &&
    (|s| == 1 ||
     (|s| - 2 <= 61 && Alphanumeric(s[|s| - 1]) && forall c <- s[1..|s| - 1] :: LabelChar(c)))
  }

  predicate Schema(value: string) {
    1 <= |value| <= 253 &&
    (if value != "" && Numeric(value) then
       |Parts(value)| == 4 && forall p <- Parts(value) :: SchemaOctet(p)
     else forall p <- Parts(value) :: MatchesLabel(p))
  }

  lemma SameOctet(s: string)
    ensures SchemaOctet(s) <==> Octet(s)
  {
    if |s| > 0 {
      assert s == [s[0]] + s[1..];
      assert s[0] in s;
    }
    if MatchesOctet(s) {
      MatchedDigits(s);
    }
  }

  lemma SameLabel(s: string)
    ensures MatchesLabel(s) <==> Label(s)
  {
    if |s| > 1 {
      assert s == [s[0]] + s[1..|s| - 1] + [s[|s| - 1]];
    }
    if |s| > 0 {
      assert s[0] in s && s[|s| - 1] in s;
    }
  }

  lemma {:induction false} OctetsAreShort(parts: seq<string>)
    requires parts != [] && Octets(parts)
    ensures |DotJoined(parts)| <= 4 * |parts|
    decreases |parts|
  {
    assert parts[0] in parts;
    if |parts| > 1 {
      OctetsAreShort(parts[1..]);
    }
  }

  /** The two validators accept the same strings, those of the grammar. */
  lemma ValidatorsAgree(value: string)
    ensures Schema(value) <==> Host(value)
  {
    DotAtEnd(value, 0);
    forall p <- Parts(value)
      ensures SchemaOctet(p) <==> Octet(p)
      ensures MatchesLabel(p) <==> Label(p)
    {
      SameOctet(p);
      SameLabel(p);
    }
    if Numeric(value) && Ipv4(value) {
      PartsJoin(value, 0);
      OctetsAreShort(Parts(value));
    }
  }
}
