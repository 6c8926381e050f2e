/** The duplicate-key scanner of the companion protocol as a function of the text, and the
    JSON texts it accepts. */
module JsonKeys {
  import opened Wrappers
  import Sequences

  const DEEPEST: nat := 64

  /** What the scanner's regular expression calls white space. */
  predicate White(c: char) {
    c in " \t\n\r\U{000B}\U{000C}\U{00A0}\U{1680}\U{2028}\U{2029}\U{202F}\U{205F}\U{3000}\U{FEFF}" ||
    '\U{2000}' <= c <= '\U{200A}'
  }

  predicate AllWhite(s: string) { forall c <- s :: White(c) }

  function SkipWhite(s: string): (r: string)
    ensures |r| <= |s|
  {
    if s != "" && White(s[0]) then SkipWhite(s[1..]) else s
  }

  /** How many characters up to and including the quote that closes a literal. */
  function CloseQuote(s: string, escaped: bool): (r: Option<nat>)
    ensures r.Some? ==> 0 < r.value <= |s|
  {
    if s == "" then None
    else if !escaped && s[0] == '"' then Some(1)
    else
      var r := CloseQuote(s[1..], !escaped && s[0] == '\\');
      if r.None? then None else Some(r.value + 1)
  }

  /** The length of the string literal at the start of a text that starts with a quote. */
  function LiteralLength(s: string): (r: Option<nat>)
    requires s != ""
    ensures r.Some? ==> 1 < r.value <= |s|
  {
    var r := CloseQuote(s[1..], false);
    if r.None? then None else Some(r.value + 1)
  }

  predicate EndsAtom(c: char) { White(c) || c in ",]}" }

  function AtomLength(s: string): (n: nat)
    ensures n <= |s|
  {
    if s == "" || EndsAtom(s[0]) then 0 else 1 + AtomLength(s[1..])
  }

  /** What a string literal denotes; None when it is not a valid literal. */
  type Decoder = string -> Option<string>

  /** Scans one value; the result is what remains of the text. */
  function Value(s: string, depth: nat, decode: Decoder): (r: Option<string>)
    ensures r.Some? ==> |r.value| < |s|
    decreases |s|, 0
  {
    var t := SkipWhite(s);
    if t == "" then None
    else if t[0] == '{' || t[0] == '[' then
      if depth >= DEEPEST then None
      else
        var u := SkipWhite(t[1..]);
        if u != "" && u[0] == (if t[0] == '{' then '}' else ']') then Some(u[1..])
        else if t[0] == '{' then Members(u, depth, {}, decode)
        else Items(u, depth, decode)
    else if t[0] == '"' then
      var n := LiteralLength(t);
      if n.None? || decode(t[..n.value]).None? then None else Some(t[n.value..])
    else if AtomLength(t) == 0 then None
    else Some(t[AtomLength(t)..])
  }

  function Items(s: string, depth: nat, decode: Decoder): (r: Option<string>)
    ensures r.Some? ==> |r.value| < |s|
    decreases |s|, 1
  {
    var v := Value(s, depth + 1, decode);
    if v.None? then None
    else
      var t := SkipWhite(v.value);
      if t == "" then None
      else if t[0] == ']' then Some(t[1..])
      else if t[0] != ',' then None
      else Items(t[1..], depth, decode)
  }

  function Members(s: string, depth: nat, keys: set<string>, decode: Decoder): (r: Option<string>)
    ensures r.Some? ==> |r.value| < |s|
    decreases |s|, 1
  {
    var k := Key(s, keys, decode);
    if k.None? then None
    else
      var v := Value(k.value.1, depth + 1, decode);
      if v.None? then None
      else
        var t := SkipWhite(v.value);
        if t == "" then None
        else if t[0] == '}' then Some(t[1..])
        else if t[0] != ',' then None
        else Members(t[1..], depth, keys + {k.value.0}, decode)
  }

  /** Scans a key that must be new and its colon; the result is the key and what remains. */
  function Key(s: string, keys: set<string>, decode: Decoder): (r: Option<(string, string)>)
    ensures r.Some? ==> |r.value.1| < |s|
  {
    var t := SkipWhite(s);
    if t == "" || t[0] != '"' then None
    else
      var n := LiteralLength(t);
      if n.None? || decode(t[..n.value]).None? then None
      else
        var key, u := decode(t[..n.value]).value, SkipWhite(t[n.value..]);
        if key in keys || u == "" || u[0] != ':' then None else Some((key, u[1..]))
  }

  /** A whole text is accepted: one value and white space. */
  predicate Accepted(s: string, decode: Decoder) {
    var v := Value(s, 0, decode);
    v.Some? && SkipWhite(v.value) == ""
  }

  // JSON values with the text they are printed as.

  datatype Json =
    | Atom(text: string)
    | Literal(text: string)
    | Array(space: string, items: Elements)
    | Object(space: string, members: Fields)

  datatype Elements = NoElement | Element(before: string, value: Json, after: string, more: Elements)

  datatype Fields = NoField | Field(before: string, key: string, colon: string, gap: string, value: Json,
                                    after: string, more: Fields)

  function Print(j: Json): string {
    match j
    case Atom(text) => text
    case Literal(text) => text
    case Array(space, items) => "[" + space + (if items.NoElement? then "]" else PrintElements(items))
    case Object(space, members) => "{" + space + (if members.NoField? then "}" else PrintFields(members))
  }

  function PrintElements(e: Elements): string {
    match e
    case NoElement => ""
    case Element(before, value, after, more) =>
      before + Print(value) + after + (if more.NoElement? then "]" else "," + PrintElements(more))
  }

  function PrintFields(f: Fields): string {
    match f
    case NoField => ""
    case Field(before, key, colon, gap, value, after, more) =>
      before + key + colon + ":" + gap + Print(value) + after +
      (if more.NoField? then "}" else "," + PrintFields(more))
  }

  /** What may stand between the quotes of a literal: any character but a quote and a
      backslash, and a backslash followed by any character. */
  predicate LiteralBody(s: string) {
    s == "" ||
    (s[0] != '"' && s[0] != '\\' && LiteralBody(s[1..])) ||
    (s[0] == '\\' && |s| >= 2 && LiteralBody(s[2..]))
  }

  predicate IsLiteral(text: string) {
    |text| >= 2 && text[0] == '"' && text[|text| - 1] == '"' && LiteralBody(text[1..|text| - 1])
  }

  predicate GoodLiteral(text: string, decode: Decoder) { IsLiteral(text) && decode(text).Some? }

  predicate GoodAtom(text: string) {
    text != "" && text[0] !in "{[\"" && forall c <- text :: !White(c) && c !in ",]}"
  }

  /** White space only where a JSON text may have it, and well-formed atoms and literals. */
  predicate Good(j: Json, decode: Decoder) {
    match j
    case Atom(text) => GoodAtom(text)
    case Literal(text) => GoodLiteral(text, decode)
    case Array(space, items) => AllWhite(space) && GoodElements(items, decode)
    case Object(space, members) => AllWhite(space) && GoodFields(members, decode)
  }

  predicate GoodElements(e: Elements, decode: Decoder) {
    match e
    case NoElement => true
    case Element(before, value, after, more) =>
      AllWhite(before) && AllWhite(after) && Good(value, decode) && GoodElements(more, decode)
  }

  predicate GoodFields(f: Fields, decode: Decoder) {
    match f
    case NoField => true
    case Field(before, key, colon, gap, value, after, more) =>
      AllWhite(before) && GoodLiteral(key, decode) && AllWhite(colon) && AllWhite(gap) && AllWhite(after) &&
      Good(value, decode) && GoodFields(more, decode)
  }

  // What the scanner is for: no repeated key at any level, and bounded nesting.

  function KeysOf(f: Fields, decode: Decoder): seq<string>
    requires GoodFields(f, decode)
  {
    match f
    case NoField => []
    case Field(_, key, _, _, _, _, more) => [decode(key).value] + KeysOf(more, decode)
  }

  predicate Distinct(keys: seq<string>) {
    forall i, j :: 0 <= i < j < |keys| ==> keys[i] != keys[j]
  }

  predicate NoRepeats(j: Json, decode: Decoder)
    requires Good(j, decode)
  {
    match j
    case Atom(_) => true
    case Literal(_) => true
    case Array(_, items) => NoRepeatsIn(items, decode)
    case Object(_, members) => Distinct(KeysOf(members, decode)) && NoRepeatsAmong(members, decode)
  }

  predicate NoRepeatsIn(e: Elements, decode: Decoder)
    requires GoodElements(e, decode)
  {
    match e
    case NoElement => true
    case Element(_, value, _, more) => NoRepeats(value, decode) && NoRepeatsIn(more, decode)
  }

  predicate NoRepeatsAmong(f: Fields, decode: Decoder)
    requires GoodFields(f, decode)
  {
    match f
    case NoField => true
    case Field(_, _, _, _, value, _, more) => NoRepeats(value, decode) && NoRepeatsAmong(more, decode)
  }

  function Max(a: nat, b: nat): nat { if a >= b then a else b }

  function Depth(j: Json): nat {
    match j
    case Atom(_) => 0
    case Literal(_) => 0
    case Array(_, items) => 1 + DepthIn(items)
    case Object(_, members) => 1 + DepthAmong(members)
  }

  function DepthIn(e: Elements): nat {
    match e
    case NoElement => 0
    case Element(_, value, _, more) => Max(Depth(value), DepthIn(more))
  }

  function DepthAmong(f: Fields): nat {
    match f
    case NoField => 0
    case Field(_, _, _, _, value, _, more) => Max(Depth(value), DepthAmong(more))
  }

  /** The scanner's verdict on a value found at a depth. */
  predicate Fits(j: Json, depth: nat, decode: Decoder)
    requires Good(j, decode)
  {
    NoRepeats(j, decode) && depth + Depth(j) <= DEEPEST
  }

  predicate FitsIn(e: Elements, depth: nat, decode: Decoder)
    requires GoodElements(e, decode)
  {
    NoRepeatsIn(e, decode) && depth + DepthIn(e) <= DEEPEST
  }

  predicate FitsAmong(f: Fields, depth: nat, keys: set<string>, decode: Decoder)
    requires GoodFields(f, decode)
  {
    NoRepeatsAmong(f, decode) && depth + DepthAmong(f) <= DEEPEST && Distinct(KeysOf(f, decode)) &&
    forall k <- KeysOf(f, decode) :: k !in keys
  }

  // Reading what was printed.

  lemma {:induction false} SkipWhiteIs(w: string, s: string)
    requires AllWhite(w) && (s == "" || !White(s[0]))
    ensures SkipWhite(w + s) == s
    decreases |w|
  {
    if w != "" {
      assert (w + s)[1..] == w[1..] + s;
      SkipWhiteIs(w[1..], s);
    } else {
      assert w + s == s;
    }
  }

  /** A body of pieces is closed by the quote that follows it, whatever comes then. */
  lemma {:induction false} BodyCloses(body: string, rest: string)
    requires LiteralBody(body)
    ensures CloseQuote(body + ("\"" + rest), false) == Some(|body| + 1)
    decreases |body|
  {
    var s := body + ("\"" + rest);
    if body == "" {
      assert s == "\"" + rest;
    } else if body[0] == '\\' {
      assert s[1..] == body[1..] + ("\"" + rest) && s[1..][1..] == body[2..] + ("\"" + rest);
      BodyCloses(body[2..], rest);
    } else {
      assert s[1..] == body[1..] + ("\"" + rest);
      BodyCloses(body[1..], rest);
    }
  }

  /** What the scanner takes up to a closing quote is a body of pieces. */
  lemma {:induction false} ClosesBody(s: string)
    requires CloseQuote(s, false).Some?
    ensures var n := CloseQuote(s, false).value; s[n - 1] == '"' && LiteralBody(s[..n - 1])
    decreases |s|
  {
    var n := CloseQuote(s, false).value;
    if s[0] == '\\' {
      ClosesBody(s[2..]);
      assert s[1..][1..] == s[2..] && s[..n - 1][2..] == s[2..][..n - 3];
    } else if s[0] != '"' {
      ClosesBody(s[1..]);
      assert s[..n - 1][1..] == s[1..][..n - 2];
    }
  }

  /** A literal is read to its own end, whatever follows. */
  lemma LiteralEnds(text: string, rest: string)
    requires IsLiteral(text)
    ensures LiteralLength(text + rest) == Some(|text|)
    ensures (text + rest)[..|text|] == text && (text + rest)[|text|..] == rest
  {
    var body := text[1..|text| - 1];
    assert text == "\"" + body + "\"";
    assert (text + rest)[1..] == body + ("\"" + rest);
    BodyCloses(body, rest);
  }

  /** Nothing else is read as a literal: the scanner reads so many characters exactly when
      they are a literal. */
  lemma LiteralExactly(t: string, n: nat)
    requires t != "" && t[0] == '"' && n <= |t|
    ensures LiteralLength(t) == Some(n) <==> IsLiteral(t[..n])
  {
    if IsLiteral(t[..n]) {
      assert t == t[..n] + t[n..];
      LiteralEnds(t[..n], t[n..]);
    }
    if LiteralLength(t) == Some(n) {
      ClosesBody(t[1..]);
      assert t[..n][1..n - 1] == t[1..][..n - 2];
    }
  }

  lemma LiteralStable(text: string, rest: string, decode: Decoder)
    requires GoodLiteral(text, decode)
    ensures LiteralLength(text + rest) == Some(|text|)
    ensures (text + rest)[..|text|] == text && (text + rest)[|text|..] == rest
  {
    LiteralEnds(text, rest);
  }

  lemma {:induction false} AtomStable(text: string, rest: string)
    requires (forall c <- text :: !EndsAtom(c)) && (rest == "" || EndsAtom(rest[0]))
    ensures AtomLength(text + rest) == |text|
    decreases |text|
  {
    if text == "" {
      assert text + rest == rest;
    } else {
      assert (text + rest)[1..] == text[1..] + rest;
      AtomStable(text[1..], rest);
    }
  }

  lemma {:induction false} SkipOver(w: string, s: string)
    requires AllWhite(w)
    ensures SkipWhite(w + s) == SkipWhite(s)
    decreases |w|
  {
    if w != "" {
      assert (w + s)[1..] == w[1..] + s;
      SkipOver(w[1..], s);
    } else {
      assert w + s == s;
    }
  }

  lemma {:induction false} SkipTwice(s: string)
    ensures SkipWhite(SkipWhite(s)) == SkipWhite(s)
    decreases |s|
  {
    if s != "" && White(s[0]) {
      SkipTwice(s[1..]);
    }
  }

  lemma ValueSkips(s: string, t: string, depth: nat, decode: Decoder)
    requires SkipWhite(s) == SkipWhite(t)
    ensures Value(s, depth, decode) == Value(t, depth, decode)
  {
  }

  lemma KeySkips(s: string, t: string, keys: set<string>, decode: Decoder)
    requires SkipWhite(s) == SkipWhite(t)
    ensures Key(s, keys, decode) == Key(t, keys, decode)
  {
  }

  /** White space in front makes no difference. */
  lemma SkipsFirst(s: string, t: string, depth: nat, keys: set<string>, decode: Decoder)
    requires SkipWhite(s) == SkipWhite(t)
    ensures Value(s, depth, decode) == Value(t, depth, decode)
    ensures Items(s, depth, decode) == Items(t, depth, decode)
    ensures Members(s, depth, keys, decode) == Members(t, depth, keys, decode)
  {
    ValueSkips(s, t, depth, decode);
    ValueSkips(s, t, depth + 1, decode);
    KeySkips(s, t, keys, decode);
  }

  lemma FirstOf(j: Json, decode: Decoder)
    requires Good(j, decode)
    ensures Print(j) != "" && !White(Print(j)[0]) && Print(j)[0] !in "]},"
    ensures j.Atom? ==> Print(j)[0] !in "{[\""
    ensures j.Literal? ==> Print(j)[0] == '"'
  {
  }

  predicate Follows(rest: string) { rest == "" || EndsAtom(rest[0]) }

  lemma FollowsAfter(after: string, c: char, rest: string)
    requires AllWhite(after) && c in ",]}"
    ensures Follows(after + [c] + rest)
    ensures SkipWhite(after + [c] + rest) == [c] + rest
  {
    assert after + [c] + rest == after + ([c] + rest);
    SkipWhiteIs(after, [c] + rest);
    assert after != "" ==> after[0] in after;
  }

  lemma ReadAtom(text: string, rest: string, depth: nat, decode: Decoder)
    requires GoodAtom(text) && Follows(rest)
    ensures Value(text + rest, depth, decode) == Some(rest)
  {
    var s := text + rest;
    AtomStable(text, rest);
    assert s[0] == text[0];
    assert s[|text|..] == rest;
    SkipWhiteIs("", s);
    assert "" + s == s;
  }

  lemma ReadLiteral(text: string, rest: string, depth: nat, decode: Decoder)
    requires GoodLiteral(text, decode)
    ensures Value(text + rest, depth, decode) == Some(rest)
  {
    var s := text + rest;
    LiteralStable(text, rest, decode);
    assert s[0] == '"';
  }

  /** The start of a container that is not empty. */
  lemma ArrayBody(s: string, u: string, depth: nat, decode: Decoder)
    requires s != "" && s[0] == '[' && SkipWhite(s) == s && depth < DEEPEST
    requires u != "" && u == SkipWhite(s[1..]) && u[0] != ']'
    ensures Value(s, depth, decode) == Items(u, depth, decode)
  {
  }

  lemma ObjectBody(s: string, u: string, depth: nat, decode: Decoder)
    requires s != "" && s[0] == '{' && SkipWhite(s) == s && depth < DEEPEST
    requires u != "" && u == SkipWhite(s[1..]) && u[0] != '}'
    ensures Value(s, depth, decode) == Members(u, depth, {}, decode)
  {
  }

  lemma TooDeep(s: string, depth: nat, decode: Decoder)
    requires s != "" && (s[0] == '[' || s[0] == '{') && SkipWhite(s) == s && depth >= DEEPEST
    ensures Value(s, depth, decode).None?
  {
  }

  lemma OpenArray(s: string, space: string, body: string, depth: nat, decode: Decoder)
    requires s == "[" + (space + body) && AllWhite(space)
    requires SkipWhite(body) != "" && SkipWhite(body)[0] != ']'
    ensures Value(s, depth, decode) == if depth >= DEEPEST then None else Items(body, depth, decode)
  {
    assert s[1..] == space + body;
    SkipOver(space, body);
    SkipTwice(body);
    if depth < DEEPEST {
      ArrayBody(s, SkipWhite(body), depth, decode);
      SkipsFirst(SkipWhite(body), body, depth, {}, decode);
    } else {
      TooDeep(s, depth, decode);
    }
  }

  lemma OpenObject(s: string, space: string, body: string, depth: nat, decode: Decoder)
    requires s == "{" + (space + body) && AllWhite(space)
    requires SkipWhite(body) != "" && SkipWhite(body)[0] != '}'
    ensures Value(s, depth, decode) == if depth >= DEEPEST then None else Members(body, depth, {}, decode)
  {
    assert s[1..] == space + body;
    SkipOver(space, body);
    SkipTwice(body);
    if depth < DEEPEST {
      ObjectBody(s, SkipWhite(body), depth, decode);
      SkipsFirst(SkipWhite(body), body, depth, {}, decode);
    } else {
      TooDeep(s, depth, decode);
    }
  }

  lemma Regroup(a: string, b: string, c: string, d: string)
    ensures a + b + c + d == a + (b + (c + d))
  {
    Sequences.Associate(a + b, c, d);
    Sequences.Associate(a, b, c + d);
  }

  predicate Hollow(j: Json) {
    (j.Array? && j.items.NoElement?) || (j.Object? && j.members.NoField?)
  }

  lemma HollowFits(j: Json, depth: nat, decode: Decoder)
    requires Good(j, decode) && Hollow(j)
    ensures Fits(j, depth, decode) <==> depth < DEEPEST
  {
    match j
    case Array(_, items) => assert NoRepeatsIn(items, decode) && DepthIn(items) == 0;
    case Object(_, members) =>
      assert NoRepeatsAmong(members, decode) && DepthAmong(members) == 0 && KeysOf(members, decode) == [];
  }

  lemma CloseHollow(s: string, space: string, close: char, rest: string, depth: nat, decode: Decoder)
    requires s != "" && AllWhite(space) && s[1..] == space + ([close] + rest)
    requires (s[0] == '[' && close == ']') || (s[0] == '{' && close == '}')
    ensures Value(s, depth, decode) == if depth >= DEEPEST then None else Some(rest)
  {
    SkipWhiteIs(space, [close] + rest);
    assert ([close] + rest)[1..] == rest;
  }

  lemma ReadEmpty(j: Json, rest: string, depth: nat, decode: Decoder)
    requires Good(j, decode) && Hollow(j)
    ensures Value(Print(j) + rest, depth, decode) == if depth >= DEEPEST then None else Some(rest)
  {
    var open, close := if j.Array? then '[' else '{', if j.Array? then ']' else '}';
    Regroup([open], j.space, [close], rest);
    assert Print(j) == [open] + j.space + [close];
    assert ([open] + (j.space + ([close] + rest)))[1..] == j.space + ([close] + rest);
    CloseHollow(Print(j) + rest, j.space, close, rest, depth, decode);
  }

  /** What follows the value of an element, and what follows the separator after that. */
  function TailOf(e: Elements, rest: string): string
    requires e.Element?
  {
    if e.more.NoElement? then rest else PrintElements(e.more) + rest
  }

  function SeparatorOf(e: Elements): char
    requires e.Element?
  {
    if e.more.NoElement? then ']' else ','
  }

  /** Regroups a printed item: what comes before its separator, the separator, and the rest. */
  lemma RegroupItem(front: string, after: string, c: string, more: string, rest: string)
    ensures front + after + (c + more) + rest == front + (after + c + (more + rest))
  {
    Sequences.Associate(front + after, c, more);
    Sequences.Associate(front + after + c, more, rest);
    Sequences.Associate(front, after, c);
    Sequences.Associate(front, after + c, more + rest);
  }

  lemma ElementsText(e: Elements, rest: string)
    requires e.Element?
    ensures PrintElements(e) + rest == e.before + Print(e.value) + (e.after + [SeparatorOf(e)] + TailOf(e, rest))
  {
    var front, more := e.before + Print(e.value), PrintElements(e.more);
    RegroupItem(front, e.after, [SeparatorOf(e)], more, rest);
    assert e.more.NoElement? ==> more == "" && "]" + more == "]" && more + rest == rest;
  }

  lemma NextElement(s: string, after: string, c: char, tail: string, depth: nat, decode: Decoder)
    requires AllWhite(after) && c in ",]" && Value(s, depth + 1, decode) == Some(after + [c] + tail)
    ensures Items(s, depth, decode) == if c == ']' then Some(tail) else Items(tail, depth, decode)
  {
    FollowsAfter(after, c, tail);
    assert ([c] + tail)[1..] == tail;
  }

  function FieldTail(f: Fields, rest: string): string
    requires f.Field?
  {
    if f.more.NoField? then rest else PrintFields(f.more) + rest
  }

  function FieldSeparator(f: Fields): char
    requires f.Field?
  {
    if f.more.NoField? then '}' else ','
  }

  function FieldBody(f: Fields, rest: string): string
    requires f.Field?
  {
    f.gap + Print(f.value) + (f.after + [FieldSeparator(f)] + FieldTail(f, rest))
  }

  lemma RegroupField(before: string, key: string, colon: string, gap: string, value: string, end: string)
    ensures before + key + colon + ":" + gap + value + end ==
            before + (key + (colon + (":" + (gap + value + end))))
  {
    var front := before + key + colon + ":";
    var body := gap + value + end;
    Sequences.Associate(front, gap, value);
    Sequences.Associate(front, gap + value, end);
    Sequences.Associate(before + key + colon, ":", body);
    Sequences.Associate(before + key, colon, ":" + body);
    Sequences.Associate(before, key, colon + (":" + body));
  }

  lemma FieldsText(f: Fields, rest: string)
    requires f.Field?
    ensures PrintFields(f) + rest == f.before + (f.key + (f.colon + (":" + FieldBody(f, rest))))
  {
    var v, more := Print(f.value), PrintFields(f.more);
    var front := f.before + f.key + f.colon + ":" + f.gap + v;
    RegroupItem(front, f.after, [FieldSeparator(f)], more, rest);
    assert f.more.NoField? ==> more == "" && "}" + more == "}" && more + rest == rest;
    RegroupField(f.before, f.key, f.colon, f.gap, v, f.after + [FieldSeparator(f)] + FieldTail(f, rest));
  }

  /** One key and its colon. */
  lemma KeyThenColon(s: string, key: string, after: string, rest: string, keys: set<string>, decode: Decoder)
    requires key != "" && key[0] == '"'
    requires SkipWhite(s) == key + after && LiteralLength(key + after) == Some(|key|)
    requires decode(key).Some? && SkipWhite(after) == ":" + rest
    ensures Key(s, keys, decode) == if decode(key).value in keys then None else Some((decode(key).value, rest))
  {
    assert (key + after)[..|key|] == key && (key + after)[|key|..] == after;
    assert (":" + rest)[1..] == rest;
  }

  lemma ReadKey(f: Fields, rest: string, keys: set<string>, decode: Decoder)
    requires GoodFields(f, decode) && f.Field?
    ensures Key(f.before + (f.key + (f.colon + (":" + rest))), keys, decode) ==
            if decode(f.key).value in keys then None else Some((decode(f.key).value, rest))
  {
    var after := f.colon + (":" + rest);
    SkipWhiteIs(f.before, f.key + after);
    LiteralStable(f.key, after, decode);
    SkipWhiteIs(f.colon, ":" + rest);
    KeyThenColon(f.before + (f.key + after), f.key, after, rest, keys, decode);
  }

  lemma NextField(s: string, key: string, body: string, after: string, c: char, tail: string, depth: nat,
                  keys: set<string>, decode: Decoder)
    requires Key(s, keys, decode) == Some((key, body))
    requires AllWhite(after) && c in ",}" && Value(body, depth + 1, decode) == Some(after + [c] + tail)
    ensures Members(s, depth, keys, decode) ==
            if c == '}' then Some(tail) else Members(tail, depth, keys + {key}, decode)
  {
    FollowsAfter(after, c, tail);
    assert ([c] + tail)[1..] == tail;
  }

  lemma ReadArray(space: string, e: Elements, rest: string, depth: nat, decode: Decoder)
    requires AllWhite(space) && GoodElements(e, decode) && e.Element?
    ensures Value("[" + space + PrintElements(e) + rest, depth, decode) ==
            if depth >= DEEPEST then None else Items(PrintElements(e) + rest, depth, decode)
  {
    var after := e.after + [SeparatorOf(e)] + TailOf(e, rest);
    ElementsText(e, rest);
    FirstOf(e.value, decode);
    assert e.before + Print(e.value) + after == e.before + (Print(e.value) + after);
    SkipWhiteIs(e.before, Print(e.value) + after);
    var s := "[" + space + PrintElements(e) + rest;
    Regroup("[", space, PrintElements(e), rest);
    OpenArray(s, space, PrintElements(e) + rest, depth, decode);
  }

  lemma ReadObject(space: string, f: Fields, rest: string, depth: nat, decode: Decoder)
    requires AllWhite(space) && GoodFields(f, decode) && f.Field?
    ensures Value("{" + space + PrintFields(f) + rest, depth, decode) ==
            if depth >= DEEPEST then None else Members(PrintFields(f) + rest, depth, {}, decode)
  {
    var after := f.colon + (":" + FieldBody(f, rest));
    FieldsText(f, rest);
    SkipWhiteIs(f.before, f.key + after);
    var s := "{" + space + PrintFields(f) + rest;
    Regroup("{", space, PrintFields(f), rest);
    OpenObject(s, space, PrintFields(f) + rest, depth, decode);
  }

  /** A value printed after white space is read when it fits, and refused otherwise. */
  lemma {:induction false} ReadValue(j: Json, before: string, rest: string, depth: nat, decode: Decoder)
    requires Good(j, decode) && AllWhite(before) && Follows(rest) && depth <= DEEPEST
    ensures Value(before + Print(j) + rest, depth, decode) == if Fits(j, depth, decode) then Some(rest) else None
    decreases j, 1
  {
    var s := Print(j) + rest;
    assert before + Print(j) + rest == before + s;
    SkipOver(before, s);
    SkipsFirst(before + s, s, depth, {}, decode);
    if Hollow(j) {
      HollowFits(j, depth, decode);
      ReadEmpty(j, rest, depth, decode);
      return;
    }
    match j
    case Atom(text) => ReadAtom(text, rest, depth, decode);
    case Literal(text) => ReadLiteral(text, rest, depth, decode);
    case Array(space, items) =>
      ReadArray(space, items, rest, depth, decode);
      ArrayFits(j, depth, decode);
      if depth < DEEPEST {
        ReadElements(items, rest, depth, decode);
      }
    case Object(space, members) =>
      ReadObject(space, members, rest, depth, decode);
      ObjectFits(j, depth, decode);
      if depth < DEEPEST {
        ReadFields(members, rest, depth, {}, decode);
      }
  }

  lemma ArrayFits(j: Json, depth: nat, decode: Decoder)
    requires j.Array? && j.items.Element? && Good(j, decode)
    ensures Print(j) == "[" + j.space + PrintElements(j.items)
    ensures Fits(j, depth, decode) <==> depth < DEEPEST && FitsIn(j.items, depth + 1, decode)
  {
  }

  lemma ObjectFits(j: Json, depth: nat, decode: Decoder)
    requires j.Object? && j.members.Field? && Good(j, decode)
    ensures Print(j) == "{" + j.space + PrintFields(j.members)
    ensures Fits(j, depth, decode) <==> depth < DEEPEST && FitsAmong(j.members, depth + 1, {}, decode)
  {
  }

  lemma FirstFieldFits(f: Fields, depth: nat, keys: set<string>, decode: Decoder)
    requires GoodFields(f, decode) && f.Field? && depth <= DEEPEST
    ensures FitsAmong(f, depth, keys, decode) <==>
            decode(f.key).value !in keys && Fits(f.value, depth, decode) &&
            FitsAmong(f.more, depth, keys + {decode(f.key).value}, decode)
  {
    KeysOfMore(f, keys, decode);
  }

  lemma FirstElementFits(e: Elements, depth: nat, decode: Decoder)
    requires GoodElements(e, decode) && e.Element? && depth <= DEEPEST
    ensures FitsIn(e, depth, decode) <==> Fits(e.value, depth, decode) && FitsIn(e.more, depth, decode)
    ensures e.more.NoElement? ==> FitsIn(e.more, depth, decode)
  {
  }

  lemma ReadElement(s: string, e: Elements, rest: string, depth: nat, fits: bool, decode: Decoder)
    requires GoodElements(e, decode) && e.Element?
    requires Value(s, depth + 1, decode) == if fits then Some(e.after + [SeparatorOf(e)] + TailOf(e, rest)) else None
    ensures Items(s, depth, decode) ==
            if !fits then None
            else if e.more.NoElement? then Some(rest)
            else Items(PrintElements(e.more) + rest, depth, decode)
  {
    if fits {
      NextElement(s, e.after, SeparatorOf(e), TailOf(e, rest), depth, decode);
    }
  }

  lemma {:induction false} ReadElementValue(e: Elements, rest: string, depth: nat, decode: Decoder)
    requires GoodElements(e, decode) && e.Element? && depth <= DEEPEST
    ensures Value(PrintElements(e) + rest, depth, decode) ==
            if Fits(e.value, depth, decode) then Some(e.after + [SeparatorOf(e)] + TailOf(e, rest)) else None
    decreases e, 0
  {
    ElementsText(e, rest);
    FollowsAfter(e.after, SeparatorOf(e), TailOf(e, rest));
    ReadValue(e.value, e.before, e.after + [SeparatorOf(e)] + TailOf(e, rest), depth, decode);
  }

  lemma {:induction false} ReadElements(e: Elements, rest: string, depth: nat, decode: Decoder)
    requires GoodElements(e, decode) && e.Element? && depth < DEEPEST
    ensures Items(PrintElements(e) + rest, depth, decode) == if FitsIn(e, depth + 1, decode) then Some(rest) else None
    decreases e, 1
  {
    var inner, fits := depth + 1, Fits(e.value, depth + 1, decode);
    ReadElementValue(e, rest, inner, decode);
    FirstElementFits(e, inner, decode);
    if e.more.Element? {
      ReadElements(e.more, rest, depth, decode);
    }
    ReadElement(PrintElements(e) + rest, e, rest, depth, fits, decode);
  }

  lemma ReadField(s: string, f: Fields, rest: string, depth: nat, keys: set<string>, fits: bool, decode: Decoder)
    requires GoodFields(f, decode) && f.Field? && s == PrintFields(f) + rest
    requires Value(FieldBody(f, rest), depth + 1, decode) ==
             if fits then Some(f.after + [FieldSeparator(f)] + FieldTail(f, rest)) else None
    ensures Members(s, depth, keys, decode) ==
            if decode(f.key).value in keys || !fits then None
            else if f.more.NoField? then Some(rest)
            else Members(PrintFields(f.more) + rest, depth, keys + {decode(f.key).value}, decode)
  {
    FieldsText(f, rest);
    ReadKey(f, FieldBody(f, rest), keys, decode);
    if decode(f.key).value !in keys && fits {
      NextField(s, decode(f.key).value, FieldBody(f, rest), f.after, FieldSeparator(f), FieldTail(f, rest), depth,
                keys, decode);
    }
  }

  lemma {:induction false} ReadFieldValue(f: Fields, rest: string, depth: nat, decode: Decoder)
    requires GoodFields(f, decode) && f.Field? && depth <= DEEPEST
    ensures Value(FieldBody(f, rest), depth, decode) ==
            if Fits(f.value, depth, decode) then Some(f.after + [FieldSeparator(f)] + FieldTail(f, rest)) else None
    decreases f, 0
  {
    FollowsAfter(f.after, FieldSeparator(f), FieldTail(f, rest));
    ReadValue(f.value, f.gap, f.after + [FieldSeparator(f)] + FieldTail(f, rest), depth, decode);
  }

  lemma {:induction false} ReadFields(f: Fields, rest: string, depth: nat, keys: set<string>, decode: Decoder)
    requires GoodFields(f, decode) && f.Field? && depth < DEEPEST
    ensures Members(PrintFields(f) + rest, depth, keys, decode) ==
            if FitsAmong(f, depth + 1, keys, decode) then Some(rest) else None
    decreases f, 1
  {
    var inner, fits := depth + 1, Fits(f.value, depth + 1, decode);
    var more := keys + {decode(f.key).value};
    ReadFieldValue(f, rest, inner, decode);
    FirstFieldFits(f, inner, keys, decode);
    if f.more.Field? {
      ReadFields(f.more, rest, depth, more, decode);
    } else {
      NoFieldFits(f.more, inner, more, decode);
    }
    ReadField(PrintFields(f) + rest, f, rest, depth, keys, fits, decode);
  }

  lemma NoFieldFits(f: Fields, depth: nat, keys: set<string>, decode: Decoder)
    requires f.NoField? && depth <= DEEPEST
    ensures FitsAmong(f, depth, keys, decode)
  {
  }

  /** New distinct keys: the first is new, and the others are new and differ from it. */
  lemma DistinctHead(key: string, more: seq<string>)
    ensures Distinct([key] + more) <==> Distinct(more) && key !in more
  {
    var all := [key] + more;
    assert forall i :: 0 <= i < |more| ==> all[i + 1] == more[i];
    if key in more {
      var i :| 0 <= i < |more| && more[i] == key;
      assert all[0] == all[i + 1];
    }
  }

  lemma NewHead(key: string, more: seq<string>, keys: set<string>)
    ensures (forall k <- [key] + more :: k !in keys) <==> key !in keys && forall k <- more :: k !in keys
  {
    assert key in [key] + more;
    assert forall k <- more :: k in [key] + more;
  }

  lemma KeysOfMore(f: Fields, keys: set<string>, decode: Decoder)
    requires GoodFields(f, decode) && f.Field?
    ensures var key, more := decode(f.key).value, KeysOf(f.more, decode);
            Distinct(KeysOf(f, decode)) && (forall k <- KeysOf(f, decode) :: k !in keys) <==>
            key !in keys && Distinct(more) && forall k <- more :: k !in keys + {key}
  {
    var key, more := decode(f.key).value, KeysOf(f.more, decode);
    assert KeysOf(f, decode) == [key] + more;
    DistinctHead(key, more);
    NewHead(key, more, keys);
  }

  // Every accepted text is a printed value.

  lemma {:induction false} SplitWhite(s: string) returns (w: string)
    ensures AllWhite(w) && s == w + SkipWhite(s)
    decreases |s|
  {
    w := "";
    if s != "" && White(s[0]) {
      w := SplitWhite(s[1..]);
      assert s == [s[0]] + s[1..];
      w := [s[0]] + w;
    }
  }

  lemma {:induction false} AtomPrefix(s: string)
    ensures forall c <- s[..AtomLength(s)] :: !EndsAtom(c)
    decreases |s|
  {
    if s != "" && !EndsAtom(s[0]) {
      AtomPrefix(s[1..]);
      assert s[..AtomLength(s)] == [s[0]] + s[1..][..AtomLength(s) - 1];
    }
  }

  lemma LiteralPrefix(t: string, decode: Decoder) returns (text: string)
    requires t != "" && t[0] == '"' && LiteralLength(t).Some? && decode(t[..LiteralLength(t).value]).Some?
    ensures GoodLiteral(text, decode) && text == t[..LiteralLength(t).value]
    ensures t == text + t[LiteralLength(t).value..]
  {
    text := t[..LiteralLength(t).value];
    LiteralExactly(t, LiteralLength(t).value);
  }

  /** A printed form of a text: a value of which it is the print. */
  ghost predicate Prints(s: string, before: string, j: Json, rest: string, decode: Decoder) {
    AllWhite(before) && Good(j, decode) && s == before + Print(j) + rest
  }

  /** How a scanned value starts. */
  lemma ValueStarts(s: string, depth: nat, decode: Decoder) returns (before: string, t: string)
    requires Value(s, depth, decode).Some?
    ensures AllWhite(before) && s == before + t && t != "" && Value(t, depth, decode) == Value(s, depth, decode)
    ensures SkipWhite(t) == t
  {
    before := SplitWhite(s);
    t := SkipWhite(s);
    SkipTwice(s);
    SkipsFirst(s, t, depth, {}, decode);
  }

  lemma ParseSimple(t: string, depth: nat, decode: Decoder) returns (j: Json)
    requires t != "" && SkipWhite(t) == t && t[0] !in "[{" && Value(t, depth, decode).Some?
    ensures Good(j, decode) && t == Print(j) + Value(t, depth, decode).value
  {
    if t[0] == '"' {
      var text := LiteralPrefix(t, decode);
      j := Literal(text);
    } else {
      AtomPrefix(t);
      j := Atom(t[..AtomLength(t)]);
      assert t == t[..AtomLength(t)] + t[AtomLength(t)..];
    }
  }

  lemma {:induction false} ParseValue(s: string, depth: nat, decode: Decoder) returns (before: string, j: Json)
    requires Value(s, depth, decode).Some?
    ensures Prints(s, before, j, Value(s, depth, decode).value, decode)
    decreases |s|, 2
  {
    var t;
    before, t := ValueStarts(s, depth, decode);
    if t[0] == '[' || t[0] == '{' {
      j := ParseContainer(t, depth, decode);
    } else {
      j := ParseSimple(t, depth, decode);
    }
    var rest := Value(s, depth, decode).value;
    assert before + Print(j) + rest == before + (Print(j) + rest);
  }

  /** How a scanned container starts, and how it goes on when it is not empty. */
  lemma ContainerStarts(t: string, depth: nat, decode: Decoder) returns (space: string, u: string)
    requires t != "" && SkipWhite(t) == t && (t[0] == '[' || t[0] == '{') && Value(t, depth, decode).Some?
    ensures AllWhite(space) && t == [t[0]] + space + u
    ensures var close := if t[0] == '{' then '}' else ']';
            var rest := Value(t, depth, decode);
            if u != "" && u[0] == close then rest == Some(u[1..])
            else if t[0] == '[' then rest == Items(u, depth, decode)
            else rest == Members(u, depth, {}, decode)
  {
    space := SplitWhite(t[1..]);
    u := SkipWhite(t[1..]);
    assert t == [t[0]] + t[1..];
  }

  lemma ParseHollow(t: string, space: string, u: string, decode: Decoder) returns (j: Json)
    requires AllWhite(space) && t != "" && u != "" && t == [t[0]] + space + u
    requires (t[0] == '{' && u[0] == '}') || (t[0] == '[' && u[0] == ']')
    ensures Good(j, decode) && t == Print(j) + u[1..]
  {
    j := if t[0] == '{' then Object(space, NoField) else Array(space, NoElement);
    assert u == [u[0]] + u[1..];
    Sequences.Associate([t[0]] + space, [u[0]], u[1..]);
  }

  lemma {:induction false} ParseContainer(t: string, depth: nat, decode: Decoder) returns (j: Json)
    requires t != "" && SkipWhite(t) == t && (t[0] == '[' || t[0] == '{') && Value(t, depth, decode).Some?
    ensures Good(j, decode) && t == Print(j) + Value(t, depth, decode).value
    decreases |t|, 0
  {
    var rest := Value(t, depth, decode).value;
    var space, u := ContainerStarts(t, depth, decode);
    if u != "" && u[0] == (if t[0] == '{' then '}' else ']') {
      j := ParseHollow(t, space, u, decode);
    } else if t[0] == '[' {
      var e := ParseItems(u, depth, decode);
      j := Array(space, e);
      Sequences.Associate("[" + space, PrintElements(e), rest);
    } else {
      var f := ParseMembers(u, depth, {}, decode);
      j := Object(space, f);
      Sequences.Associate("{" + space, PrintFields(f), rest);
    }
  }

  /** What follows a scanned value inside a container: white space, a separator and the tail. */
  lemma Separated(v: string) returns (after: string, c: char, tail: string)
    requires SkipWhite(v) != ""
    ensures AllWhite(after) && v == after + [c] + tail && SkipWhite(v) == [c] + tail
    ensures |tail| < |v| && SkipWhite(v)[1..] == tail
  {
    after := SplitWhite(v);
    c, tail := SkipWhite(v)[0], SkipWhite(v)[1..];
    assert SkipWhite(v) == [c] + tail;
  }

  lemma ItemsParts(s: string, depth: nat, decode: Decoder) returns (after: string, c: char, tail: string)
    requires Items(s, depth, decode).Some?
    ensures AllWhite(after) && c in ",]" && |tail| < |s|
    ensures Value(s, depth + 1, decode) == Some(after + [c] + tail)
    ensures Items(s, depth, decode) == if c == ']' then Some(tail) else Items(tail, depth, decode)
  {
    after, c, tail := Separated(Value(s, depth + 1, decode).value);
  }

  lemma {:induction false} ParseItems(s: string, depth: nat, decode: Decoder) returns (e: Elements)
    requires Items(s, depth, decode).Some?
    ensures e.Element? && GoodElements(e, decode) && s == PrintElements(e) + Items(s, depth, decode).value
    decreases |s|, 3
  {
    var after, c, tail := ItemsParts(s, depth, decode);
    var before, j := ParseValue(s, depth + 1, decode);
    var more := NoElement;
    if c == ',' {
      more := ParseItems(tail, depth, decode);
    }
    e := Element(before, j, after, more);
    ElementsText(e, Items(s, depth, decode).value);
  }

  lemma ParseKey(s: string, keys: set<string>, decode: Decoder)
    returns (before: string, text: string, colon: string)
    requires Key(s, keys, decode).Some?
    ensures AllWhite(before) && GoodLiteral(text, decode) && AllWhite(colon)
    ensures Key(s, keys, decode).value.0 == decode(text).value
    ensures s == before + (text + (colon + (":" + Key(s, keys, decode).value.1)))
  {
    before := SplitWhite(s);
    var t := SkipWhite(s);
    text := LiteralPrefix(t, decode);
    var after := t[LiteralLength(t).value..];
    colon := SplitWhite(after);
    var u := SkipWhite(after);
    assert u == ":" + u[1..];
  }

  lemma MembersParts(s: string, depth: nat, keys: set<string>, decode: Decoder)
    returns (key: string, body: string, after: string, c: char, tail: string)
    requires Members(s, depth, keys, decode).Some?
    ensures Key(s, keys, decode) == Some((key, body)) && |body| < |s| && |tail| < |s|
    ensures AllWhite(after) && c in ",}"
    ensures Value(body, depth + 1, decode) == Some(after + [c] + tail)
    ensures Members(s, depth, keys, decode) ==
            if c == '}' then Some(tail) else Members(tail, depth, keys + {key}, decode)
  {
    key, body := Key(s, keys, decode).value.0, Key(s, keys, decode).value.1;
    after, c, tail := Separated(Value(body, depth + 1, decode).value);
  }

  lemma {:induction false} ParseMembers(s: string, depth: nat, keys: set<string>, decode: Decoder)
    returns (f: Fields)
    requires Members(s, depth, keys, decode).Some?
    ensures f.Field? && GoodFields(f, decode) && s == PrintFields(f) + Members(s, depth, keys, decode).value
    decreases |s|, 3
  {
    var before, text, colon := ParseMembersKey(s, depth, keys, decode);
    var key, body, after, c, tail := MembersParts(s, depth, keys, decode);
    var gap, j := ParseValue(body, depth + 1, decode);
    var more := NoField;
    if c == ',' {
      more := ParseMembers(tail, depth, keys + {key}, decode);
    }
    f := Field(before, text, colon, gap, j, after, more);
    FieldsText(f, Members(s, depth, keys, decode).value);
  }

  lemma ParseMembersKey(s: string, depth: nat, keys: set<string>, decode: Decoder)
    returns (before: string, text: string, colon: string)
    requires Members(s, depth, keys, decode).Some?
    ensures AllWhite(before) && GoodLiteral(text, decode) && AllWhite(colon)
    ensures Key(s, keys, decode).Some? && s == before + (text + (colon + (":" + Key(s, keys, decode).value.1)))
  {
    before, text, colon := ParseKey(s, keys, decode);
  }

  /** The scanner accepts a printed value exactly when no object at any level repeats a key
      and containers nest at most 64 deep. */
  lemma AcceptsPrinted(before: string, j: Json, after: string, decode: Decoder)
    requires AllWhite(before) && AllWhite(after) && Good(j, decode)
    ensures Accepted(before + Print(j) + after, decode) <==> NoRepeats(j, decode) && Depth(j) <= 64
  {
    assert after != "" ==> after[0] in after;
    ReadValue(j, before, after, 0, decode);
    SkipWhiteIs(after, "");
    assert after + "" == after;
  }

  /** Every accepted text is a printed value without repeated keys and of bounded depth. */
  lemma AcceptedIsPrinted(s: string, decode: Decoder) returns (before: string, j: Json, after: string)
    requires Accepted(s, decode)
    ensures AllWhite(before) && AllWhite(after) && Good(j, decode) && s == before + Print(j) + after
    ensures NoRepeats(j, decode) && Depth(j) <= 64
  {
    before, j := ParseValue(s, 0, decode);
    after := SplitWhite(Value(s, 0, decode).value);
    assert after + "" == after;
    AcceptsPrinted(before, j, after, decode);
  }
}
