/** The token view of a sensor configuration document, and documents printed from trees. */
module XmlText {
  import opened Wrappers
  import Sequences

  datatype Token = Char(c: char) | Open(name: string) | Close(name: string) | Alone(name: string)

  predicate White(c: char) { c in " \t\n\r\U{000C}\U{000B}" }

  predicate AllWhite(s: string) { forall c <- s :: White(c) }

  function TrimLeft(s: string): string {
    if s != "" && White(s[0]) then TrimLeft(s[1..]) else s
  }

  function TrimRight(s: string): string {
    if s != "" && White(s[|s| - 1]) then TrimRight(s[..|s| - 1]) else s
  }

  function Trim(s: string): string { TrimRight(TrimLeft(s)) }

  predicate Solid(s: string) { s != "" && !White(s[0]) && !White(s[|s| - 1]) }

  lemma {:induction false} TrimLeftIs(w: string, s: string)
    requires AllWhite(w) && (s == "" || !White(s[0]))
    ensures TrimLeft(w + s) == s
    decreases |w|
  {
    if w != "" {
      assert (w + s)[1..] == w[1..] + s;
      TrimLeftIs(w[1..], s);
    } else {
      assert w + s == s;
    }
  }

  lemma {:induction false} TrimRightIs(s: string, w: string)
    requires AllWhite(w) && (s == "" || !White(s[|s| - 1]))
    ensures TrimRight(s + w) == s
    decreases |w|
  {
    if w != "" {
      assert (s + w)[..|s + w| - 1] == s + w[..|w| - 1];
      TrimRightIs(s, w[..|w| - 1]);
    } else {
      assert s + w == s;
    }
  }

  lemma TrimIs(before: string, s: string, after: string)
    requires AllWhite(before) && AllWhite(after) && Solid(s)
    ensures Trim(before + s + after) == s
  {
    assert before + s + after == before + (s + after);
    TrimLeftIs(before, s + after);
    TrimRightIs(s, after);
  }

  /** Where a pattern first occurs. */
  function Find(s: string, pattern: string): (r: Option<nat>)
    ensures r.Some? ==> r.value + |pattern| <= |s|
    decreases |s|
  {
    if pattern <= s then Some(0)
    else if s == "" then None
    else
      var r := Find(s[1..], pattern);
      if r.None? then None else Some(r.value + 1)
  }

  /** The end of a tag: the first '>' outside quotes. */
  function TagEnd(s: string, quote: Option<char>): (r: Option<nat>)
    ensures r.Some? ==> r.value < |s|
  {
    if s == "" then None
    else if quote.None? && s[0] == '>' then Some(0)
    else
      var next := if quote.Some? then (if s[0] == quote.value then None else quote)
                  else if s[0] in "'\"" then Some(s[0]) else None;
      var r := TagEnd(s[1..], next);
      if r.None? then None else Some(r.value + 1)
  }

  /** The part of a tag before the first white space. */
  function NameOf(tag: string): string {
    if tag == "" || White(tag[0]) then "" else [tag[0]] + NameOf(tag[1..])
  }

  function TagToken(tag: string): Option<Token> {
    if tag == "" then None
    else if tag[0] == '/' then
      var name := Trim(tag[1..]);
      if name == "" || exists c <- name :: White(c) || c == '/' then None else Some(Close(name))
    else
      var alone := tag[|tag| - 1] == '/';
      var name := NameOf(if alone then Trim(tag[..|tag| - 1]) else tag);
      if name == "" || name[0] == '/' then None
      else Some(if alone then Alone(name) else Open(name))
  }

  function Chars(s: string): seq<Token> { seq(|s|, i requires 0 <= i < |s| => Char(s[i])) }

  datatype Piece = Piece(tokens: seq<Token>, length: nat)

  /** The markup at the start of a text: its tokens and its length. */
  function Markup(s: string): (r: Option<Piece>)
    requires s != "" && s[0] == '<'
    ensures r.Some? ==> 0 < r.value.length <= |s|
  {
    if "<!--" <= s then
      var end := Find(s[4..], "-->");
      if end.None? then None else Some(Piece([], end.value + 7))
    else if "<![CDATA[" <= s then
      var end := Find(s[9..], "]]>");
      if end.None? then None else Some(Piece(Chars(s[9..][..end.value]), end.value + 12))
    else if "<?" <= s then
      var end := Find(s[2..], "?>");
      if end.None? then None else Some(Piece([], end.value + 4))
    else if "<!" <= s then None
    else
      var end := TagEnd(s[1..], None);
      if end.None? then None
      else
        var token := TagToken(Trim(s[1..][..end.value]));
        if token.None? then None else Some(Piece([token.value], end.value + 2))
  }

  function Prepend(tokens: seq<Token>, rest: Option<seq<Token>>): Option<seq<Token>> {
    if rest.None? then None else Some(tokens + rest.value)
  }

  function Lex(s: string): Option<seq<Token>>
    decreases |s|
  {
    if s == "" then Some([])
    else if s[0] != '<' then Prepend([Char(s[0])], Lex(s[1..]))
    else
      var m := Markup(s);
      if m.None? then None else Prepend(m.value.tokens, Lex(s[m.value.length..]))
  }

  lemma PrependTwice(a: seq<Token>, b: seq<Token>, rest: Option<seq<Token>>)
    ensures Prepend(a, Prepend(b, rest)) == Prepend(a + b, rest)
  {
    if rest.Some? {
      assert a + (b + rest.value) == (a + b) + rest.value;
    }
  }

  lemma {:induction false} LexText(text: string, rest: string)
    requires '<' !in text
    ensures Lex(text + rest) == Prepend(Chars(text), Lex(rest))
    decreases |text|
  {
    if text == "" {
      assert text + rest == rest;
      assert Lex(rest).Some? ==> Chars("") + Lex(rest).value == Lex(rest).value;
    } else {
      assert (text + rest)[1..] == text[1..] + rest;
      LexText(text[1..], rest);
      PrependTwice([Char(text[0])], Chars(text[1..]), Lex(rest));
      assert [Char(text[0])] + Chars(text[1..]) == Chars(text);
    }
  }

  // Documents.

  /** An attribute: everything from the white space before it to its closing quote. */
  datatype Attribute = Attribute(lead: string, quote: char, value: string)

  /** A forest in first-child, next-sibling form. */
  datatype Doc =
    | End
    | Text(text: string, next: Doc)
    | Cdata(text: string, next: Doc)
    | Comment(text: string, next: Doc)
    | Instruction(text: string, next: Doc)
    | Empty(name: string, attributes: seq<Attribute>, space: string, next: Doc)
    | Element(name: string, attributes: seq<Attribute>, space: string, children: Doc, closing: string, next: Doc)

  predicate Plain(s: string) { '>' !in s && '\'' !in s && '"' !in s }

  predicate GoodName(name: string) {
    name != "" && name[0] != '!' && name[0] != '?' && Plain(name) &&
    forall c <- name :: !White(c) && c != '/'
  }

  predicate GoodAttribute(a: Attribute) {
    a.lead != "" && White(a.lead[0]) && Plain(a.lead) && a.quote in "'\"" && a.quote !in a.value
  }

  predicate GoodTag(name: string, attributes: seq<Attribute>, space: string) {
    GoodName(name) && (forall a <- attributes :: GoodAttribute(a)) && AllWhite(space)
  }

  /** What a printer must respect for its output to mean the document. */
  predicate Printable(d: Doc) {
    match d
    case End => true
    case Text(text, next) => '<' !in text && Printable(next)
    case Cdata(text, next) => Find(text, "]]>").None? && Printable(next)
    case Comment(text, next) => Find(text, "-->").None? && Printable(next)
    case Instruction(text, next) => Find(text, "?>").None? && Printable(next)
    case Empty(name, attributes, space, next) => GoodTag(name, attributes, space) && Printable(next)
    case Element(name, attributes, space, children, closing, next) =>
      GoodTag(name, attributes, space) && AllWhite(closing) && Printable(children) && Printable(next)
  }

  function PrintAttribute(a: Attribute): string { a.lead + [a.quote] + a.value + [a.quote] }

  function PrintAttributes(attributes: seq<Attribute>): string {
    if attributes == [] then ""
    else
      var last := attributes[|attributes| - 1];
      PrintAttributes(attributes[..|attributes| - 1]) + PrintAttribute(last)
  }

  function PrintTag(name: string, attributes: seq<Attribute>): string { name + PrintAttributes(attributes) }

  function Print(d: Doc): string {
    match d
    case End => ""
    case Text(text, next) => text + Print(next)
    case Cdata(text, next) => "<![CDATA[" + text + "]]>" + Print(next)
    case Comment(text, next) => "<!--" + text + "-->" + Print(next)
    case Instruction(text, next) => "<?" + text + "?>" + Print(next)
    case Empty(name, attributes, space, next) => "<" + PrintTag(name, attributes) + space + "/>" + Print(next)
    case Element(name, attributes, space, children, closing, next) =>
      "<" + PrintTag(name, attributes) + space + ">" + Print(children) + "</" + name + closing + ">" + Print(next)
  }

  function Tokens(d: Doc): seq<Token> {
    match d
    case End => []
    case Text(text, next) => Chars(text) + Tokens(next)
    case Cdata(text, next) => Chars(text) + Tokens(next)
    case Comment(_, next) => Tokens(next)
    case Instruction(_, next) => Tokens(next)
    case Empty(name, _, _, next) => [Alone(name)] + Tokens(next)
    case Element(name, _, _, children, _, next) =>
      [Open(name)] + Tokens(children) + [Close(name)] + Tokens(next)
  }

  // Finding terminators.

  /** A pattern whose last letter occurs nowhere else in it. */
  predicate Marked(pattern: string) {
    pattern != "" && forall i :: 0 <= i < |pattern| - 1 ==> pattern[i] != pattern[|pattern| - 1]
  }

  /** A marked pattern written after a text does not begin inside it. */
  lemma StartsNowhere(text: string, pattern: string, rest: string)
    requires Marked(pattern) && text != "" && !(pattern <= text)
    ensures !(pattern <= text + pattern + rest)
  {
    var n, s := |pattern|, text + pattern + rest;
    if n <= |text| {
      assert s[..n] == text[..n];
    } else {
      assert s[n - 1] == pattern[n - 1 - |text|];
    }
  }

  /** A text without the pattern ends where the pattern is written after it. */
  lemma {:induction false} FindTerminator(text: string, pattern: string, rest: string)
    requires Marked(pattern) && Find(text, pattern).None?
    ensures Find(text + pattern + rest, pattern) == Some(|text|)
    decreases |text|
  {
    var s := text + pattern + rest;
    if text == "" {
      assert s == pattern + rest;
    } else {
      StartsNowhere(text, pattern, rest);
      assert s[1..] == text[1..] + pattern + rest;
      FindTerminator(text[1..], pattern, rest);
    }
  }

  // Tags.

  function Plus(n: nat, r: Option<nat>): Option<nat> {
    if r.None? then None else Some(n + r.value)
  }

  lemma {:induction false} TagEndPlain(a: string, rest: string)
    requires Plain(a)
    ensures TagEnd(a + rest, None) == Plus(|a|, TagEnd(rest, None))
    decreases |a|
  {
    if a == "" {
      assert a + rest == rest;
    } else {
      assert (a + rest)[1..] == a[1..] + rest;
      TagEndPlain(a[1..], rest);
    }
  }

  lemma {:induction false} TagEndQuoted(value: string, q: char, rest: string)
    requires q !in value
    ensures TagEnd(value + [q] + rest, Some(q)) == Plus(|value| + 1, TagEnd(rest, None))
    decreases |value|
  {
    if value == "" {
      assert (value + [q] + rest)[1..] == rest;
    } else {
      assert (value + [q] + rest)[1..] == value[1..] + [q] + rest;
      TagEndQuoted(value[1..], q, rest);
    }
  }

  lemma AttributeText(a: Attribute, rest: string)
    ensures PrintAttribute(a) + rest == a.lead + ([a.quote] + (a.value + [a.quote] + rest))
  {
    Sequences.Associate(a.lead + [a.quote], a.value + [a.quote], rest);
    Sequences.Associate(a.lead + [a.quote], a.value, [a.quote]);
    Sequences.Associate(a.lead, [a.quote], a.value + [a.quote] + rest);
  }

  lemma TagEndAttribute(a: Attribute, rest: string)
    requires GoodAttribute(a)
    ensures TagEnd(PrintAttribute(a) + rest, None) == Plus(|PrintAttribute(a)|, TagEnd(rest, None))
  {
    var inner := a.value + [a.quote] + rest;
    var tail := [a.quote] + inner;
    AttributeText(a, rest);
    TagEndPlain(a.lead, tail);
    assert tail[1..] == inner;
    TagEndQuoted(a.value, a.quote, rest);
  }

  lemma {:induction false} TagEndAttributes(attributes: seq<Attribute>, rest: string)
    requires forall a <- attributes :: GoodAttribute(a)
    ensures TagEnd(PrintAttributes(attributes) + rest, None) ==
            Plus(|PrintAttributes(attributes)|, TagEnd(rest, None))
    decreases |attributes|
  {
    if attributes == [] {
      assert PrintAttributes(attributes) + rest == rest;
    } else {
      var init, last := attributes[..|attributes| - 1], attributes[|attributes| - 1];
      var s := PrintAttribute(last);
      Sequences.Associate(PrintAttributes(init), s, rest);
      TagEndAttributes(init, s + rest);
      TagEndAttribute(last, rest);
    }
  }

  lemma TagEndTail(tail: string, rest: string)
    requires Plain(tail)
    ensures TagEnd(tail + ">" + rest, None) == Some(|tail|)
  {
    Sequences.Associate(tail, ">", rest);
    TagEndPlain(tail, ">" + rest);
  }

  lemma TagText(name: string, attributes: string, tail: string, rest: string)
    ensures name + attributes + tail + ">" + rest == name + (attributes + (tail + ">" + rest))
  {
    Sequences.Associate(name + attributes + tail, ">", rest);
    Sequences.Associate(tail, ">", rest);
    Sequences.Associate(name + attributes, tail, ">" + rest);
    Sequences.Associate(name, attributes, tail + ">" + rest);
  }

  /** A printed tag body ends at the '>' that follows it. */
  lemma TagEndPrinted(name: string, attributes: seq<Attribute>, tail: string, rest: string)
    requires GoodName(name) && (forall a <- attributes :: GoodAttribute(a)) && Plain(tail)
    ensures TagEnd(PrintTag(name, attributes) + tail + ">" + rest, None) ==
            Some(|PrintTag(name, attributes) + tail|)
  {
    var printed, end := PrintAttributes(attributes), tail + ">" + rest;
    TagText(name, printed, tail, rest);
    TagEndPlain(name, printed + end);
    TagEndAttributes(attributes, end);
    TagEndTail(tail, rest);
  }

  lemma {:induction false} NameOfIs(name: string, rest: string)
    requires (forall c <- name :: !White(c)) && (rest == "" || White(rest[0]))
    ensures NameOf(name + rest) == name
    decreases |name|
  {
    if name == "" {
      assert name + rest == rest;
    } else {
      assert (name + rest)[1..] == name[1..] + rest;
      NameOfIs(name[1..], rest);
    }
  }

  lemma AttributeShape(a: Attribute)
    requires GoodAttribute(a)
    ensures var s := PrintAttribute(a);
            s != "" && White(s[0]) && s[|s| - 1] in "'\""
  {
    var s := PrintAttribute(a);
    assert s[0] == a.lead[0] && s[|s| - 1] == a.quote;
  }

  lemma {:induction false} AttributesShape(attributes: seq<Attribute>)
    requires forall a <- attributes :: GoodAttribute(a)
    ensures var s := PrintAttributes(attributes);
            s == "" || (White(s[0]) && s[|s| - 1] in "'\"")
    decreases |attributes|
  {
    if attributes != [] {
      var init, last := attributes[..|attributes| - 1], attributes[|attributes| - 1];
      var before, s := PrintAttributes(init), PrintAttribute(last);
      AttributesShape(init);
      AttributeShape(last);
      assert (before + s)[|before + s| - 1] == s[|s| - 1];
      assert (before + s)[0] == if before == "" then s[0] else before[0];
    }
  }

  lemma TagShape(name: string, attributes: seq<Attribute>)
    requires GoodName(name) && forall a <- attributes :: GoodAttribute(a)
    ensures var tag := PrintTag(name, attributes);
            Solid(tag) && tag[0] == name[0] && tag[0] != '/' && tag[|tag| - 1] != '/' && NameOf(tag) == name
  {
    AttributesShape(attributes);
    NameOfIs(name, PrintAttributes(attributes));
    assert name[0] in name && name[|name| - 1] in name;
  }

  /** A tag is read up to its '>' and trimmed. */
  lemma TagMarkup(body: string, rest: string, token: Token)
    requires body != "" && body[0] != '!' && body[0] != '?'
    requires TagEnd(body + ">" + rest, None) == Some(|body|) && TagToken(Trim(body)) == Some(token)
    ensures Markup("<" + body + ">" + rest) == Some(Piece([token], |body| + 2))
  {
    var s := "<" + body + ">" + rest;
    assert s[1] == body[0];
    assert s[1..] == body + ">" + rest;
    assert s[1..][..|body|] == body;
  }

  lemma OpenToken(name: string, attributes: seq<Attribute>, space: string)
    requires GoodTag(name, attributes, space)
    ensures TagToken(Trim(PrintTag(name, attributes) + space)) == Some(Open(name))
  {
    var tag := PrintTag(name, attributes);
    TagShape(name, attributes);
    TrimEnd(tag, space);
    assert tag != "";
  }

  lemma TrimEnd(s: string, after: string)
    requires AllWhite(after) && Solid(s)
    ensures Trim(s + after) == s
  {
    TrimIs("", s, after);
    assert "" + s + after == s + after;
  }

  lemma AloneBody(tag: string, space: string)
    requires Solid(tag) && tag[0] != '/' && AllWhite(space) && NameOf(tag) != "" && NameOf(tag)[0] != '/'
    ensures TagToken(tag + space + "/") == Some(Alone(NameOf(tag)))
  {
    var body := tag + space + "/";
    TrimEnd(tag, space);
    assert body[..|body| - 1] == tag + space && body[|body| - 1] == '/';
    assert body[0] == tag[0];
  }

  lemma AloneToken(name: string, attributes: seq<Attribute>, space: string)
    requires GoodTag(name, attributes, space)
    ensures TagToken(Trim(PrintTag(name, attributes) + space + "/")) == Some(Alone(name))
  {
    var tag := PrintTag(name, attributes);
    TagShape(name, attributes);
    var body := tag + space + "/";
    assert body[0] == tag[0] && body[|body| - 1] == '/';
    TrimEnd(body, "");
    assert body + "" == body;
    AloneBody(tag, space);
  }

  lemma CloseToken(name: string, closing: string)
    requires GoodName(name) && AllWhite(closing)
    ensures TagToken(Trim("/" + name + closing)) == Some(Close(name))
  {
    assert name[0] in name && name[|name| - 1] in name;
    TrimIs("", "/" + name, closing);
    assert "" + ("/" + name) + closing == "/" + name + closing;
    assert ("/" + name)[1..] == "" + name + "";
    TrimIs("", name, "");
  }

  lemma OpenMarkup(name: string, attributes: seq<Attribute>, space: string, rest: string)
    requires GoodTag(name, attributes, space)
    ensures var tag := PrintTag(name, attributes) + space;
            Markup("<" + tag + ">" + rest) == Some(Piece([Open(name)], |tag| + 2))
  {
    TagEndPrinted(name, attributes, space, rest);
    OpenToken(name, attributes, space);
    TagMarkup(PrintTag(name, attributes) + space, rest, Open(name));
  }

  lemma AloneTagEnd(name: string, attributes: seq<Attribute>, space: string, rest: string)
    requires GoodTag(name, attributes, space)
    ensures var tag := PrintTag(name, attributes) + space + "/";
            TagEnd(tag + ">" + rest, None) == Some(|tag|)
  {
    Sequences.Associate(PrintTag(name, attributes), space, "/");
    TagEndPrinted(name, attributes, space + "/", rest);
  }

  lemma AloneMarkup(name: string, attributes: seq<Attribute>, space: string, rest: string)
    requires GoodTag(name, attributes, space)
    ensures var tag := PrintTag(name, attributes) + space + "/";
            Markup("<" + tag + ">" + rest) == Some(Piece([Alone(name)], |tag| + 2))
  {
    AloneTagEnd(name, attributes, space, rest);
    AloneToken(name, attributes, space);
    TagMarkup(PrintTag(name, attributes) + space + "/", rest, Alone(name));
  }

  lemma CloseMarkup(name: string, closing: string, rest: string)
    requires GoodName(name) && AllWhite(closing)
    ensures var tag := "/" + name + closing;
            Markup("<" + tag + ">" + rest) == Some(Piece([Close(name)], |tag| + 2))
  {
    var tag := "/" + name + closing;
    assert Plain(tag);
    TagEndTail(tag, rest);
    CloseToken(name, closing);
    assert tag[0] == '/';
    TagMarkup(tag, rest, Close(name));
  }

  // Lexing what was printed.

  lemma LexMarkup(markup: string, rest: string, tokens: seq<Token>)
    requires markup != "" && markup[0] == '<'
    requires Markup(markup + rest) == Some(Piece(tokens, |markup|))
    ensures Lex(markup + rest) == Prepend(tokens, Lex(rest))
  {
    assert (markup + rest)[|markup|..] == rest;
  }

  lemma LexComment(text: string, rest: string)
    requires Find(text, "-->").None?
    ensures Lex("<!--" + text + "-->" + rest) == Prepend([], Lex(rest))
  {
    var markup := "<!--" + text + "-->";
    assert markup + rest == "<!--" + text + "-->" + rest;
    assert (markup + rest)[4..] == text + "-->" + rest;
    FindTerminator(text, "-->", rest);
    LexMarkup(markup, rest, []);
  }

  lemma LexInstruction(text: string, rest: string)
    requires Find(text, "?>").None?
    ensures Lex("<?" + text + "?>" + rest) == Prepend([], Lex(rest))
  {
    var markup := "<?" + text + "?>";
    assert markup + rest == "<?" + text + "?>" + rest;
    assert (markup + rest)[1] == '?';
    assert (markup + rest)[2..] == text + "?>" + rest;
    FindTerminator(text, "?>", rest);
    LexMarkup(markup, rest, []);
  }

  lemma LexCdata(text: string, rest: string)
    requires Find(text, "]]>").None?
    ensures Lex("<![CDATA[" + text + "]]>" + rest) == Prepend(Chars(text), Lex(rest))
  {
    var markup := "<![CDATA[" + text + "]]>";
    assert markup + rest == "<![CDATA[" + text + "]]>" + rest;
    assert (markup + rest)[2] == '[';
    assert (markup + rest)[9..] == text + "]]>" + rest;
    assert (markup + rest)[9..][..|text|] == text;
    FindTerminator(text, "]]>", rest);
    LexMarkup(markup, rest, Chars(text));
  }

  lemma LexTag(tag: string, token: Token, rest: string)
    requires Markup("<" + tag + ">" + rest) == Some(Piece([token], |tag| + 2))
    ensures Lex("<" + tag + ">" + rest) == Prepend([token], Lex(rest))
  {
    var markup := "<" + tag + ">";
    assert markup + rest == "<" + tag + ">" + rest;
    LexMarkup(markup, rest, [token]);
  }

  lemma PrependNothing(rest: Option<seq<Token>>)
    ensures Prepend([], rest) == rest
  {
    if rest.Some? {
      assert [] + rest.value == rest.value;
    }
  }

  lemma ElementTokens(name: string, children: seq<Token>, next: seq<Token>, rest: Option<seq<Token>>)
    ensures Prepend([Open(name)], Prepend(children, Prepend([Close(name)], Prepend(next, rest)))) ==
            Prepend([Open(name)] + children + [Close(name)] + next, rest)
  {
    PrependTwice([Close(name)], next, rest);
    PrependTwice(children, [Close(name)] + next, rest);
    PrependTwice([Open(name)], children + ([Close(name)] + next), rest);
    assert [Open(name)] + (children + ([Close(name)] + next)) == [Open(name)] + children + [Close(name)] + next;
  }

  /** What one text, CDATA, comment or instruction adds to the tokens. */
  function Shown(d: Doc): seq<Token> {
    match d
    case Text(text, _) => Chars(text)
    case Cdata(text, _) => Chars(text)
    case _ => []
  }

  lemma LexMisc(d: Doc, rest: string)
    requires Printable(d) && (d.Text? || d.Cdata? || d.Comment? || d.Instruction?)
    ensures Lex(Print(d) + rest) ==
            Prepend(Shown(d), Lex(Print(d.next) + rest))
  {
    var text, after := d.text, Print(d.next) + rest;
    match d
    case Text(_, _) =>
      Sequences.Associate(text, Print(d.next), rest);
      LexText(text, after);
    case Cdata(_, _) =>
      Sequences.Associate("<![CDATA[" + text + "]]>", Print(d.next), rest);
      LexCdata(text, after);
    case Comment(_, _) =>
      Sequences.Associate("<!--" + text + "-->", Print(d.next), rest);
      LexComment(text, after);
    case Instruction(_, _) =>
      Sequences.Associate("<?" + text + "?>", Print(d.next), rest);
      LexInstruction(text, after);
  }

  lemma EmptyText(tag: string, space: string, next: string, rest: string)
    ensures "<" + tag + space + "/>" + next + rest == "<" + (tag + space + "/") + ">" + (next + rest)
  {
    var all := "<" + tag + space + "/>";
    assert all == "<" + (tag + space + "/") + ">";
    Sequences.Associate(all, next, rest);
  }

  lemma LexEmpty(name: string, attributes: seq<Attribute>, space: string, next: Doc, rest: string)
    requires GoodTag(name, attributes, space) && Printable(next)
    ensures Lex(Print(Empty(name, attributes, space, next)) + rest) ==
            Prepend([Alone(name)], Lex(Print(next) + rest))
  {
    EmptyText(PrintTag(name, attributes), space, Print(next), rest);
    LexAlone(name, attributes, space, Print(next) + rest);
  }

  lemma LexAlone(name: string, attributes: seq<Attribute>, space: string, rest: string)
    requires GoodTag(name, attributes, space)
    ensures Lex("<" + (PrintTag(name, attributes) + space + "/") + ">" + rest) == Prepend([Alone(name)], Lex(rest))
  {
    AloneMarkup(name, attributes, space, rest);
    LexTag(PrintTag(name, attributes) + space + "/", Alone(name), rest);
  }

  lemma LexOpen(name: string, attributes: seq<Attribute>, space: string, rest: string)
    requires GoodTag(name, attributes, space)
    ensures Lex("<" + (PrintTag(name, attributes) + space) + ">" + rest) == Prepend([Open(name)], Lex(rest))
  {
    OpenMarkup(name, attributes, space, rest);
    LexTag(PrintTag(name, attributes) + space, Open(name), rest);
  }

  lemma ElementText(open: string, children: string, close: string, next: string, rest: string)
    ensures open + children + close + next + rest == open + (children + (close + (next + rest)))
  {
    Sequences.Associate(open + children + close, next, rest);
    Sequences.Associate(open + children, close, next + rest);
    Sequences.Associate(open, children, close + (next + rest));
  }

  lemma PrintElement(tag: string, space: string, children: string, name: string, closing: string, next: string)
    ensures "<" + tag + space + ">" + children + "</" + name + closing + ">" + next ==
            ("<" + (tag + space) + ">") + children + ("<" + ("/" + name + closing) + ">") + next
  {
    assert "<" + tag + space + ">" == "<" + (tag + space) + ">";
    var front := "<" + (tag + space) + ">" + children;
    assert front + "</" + name + closing + ">" == front + ("<" + ("/" + name + closing) + ">");
  }

  /** The text after the children of an element. */
  function EndText(name: string, closing: string, next: Doc, rest: string): string {
    "<" + ("/" + name + closing) + ">" + (Print(next) + rest)
  }

  lemma LexEnd(name: string, closing: string, next: Doc, rest: string)
    requires GoodName(name) && AllWhite(closing)
    ensures Lex(EndText(name, closing, next, rest)) == Prepend([Close(name)], Lex(Print(next) + rest))
  {
    CloseMarkup(name, closing, Print(next) + rest);
    LexTag("/" + name + closing, Close(name), Print(next) + rest);
  }

  lemma PrintedElement(name: string, attributes: seq<Attribute>, space: string, children: Doc, closing: string,
                       next: Doc, rest: string)
    ensures Print(Element(name, attributes, space, children, closing, next)) + rest ==
            "<" + (PrintTag(name, attributes) + space) + ">" + (Print(children) + EndText(name, closing, next, rest))
  {
    var tag := PrintTag(name, attributes) + space;
    PrintElement(PrintTag(name, attributes), space, Print(children), name, closing, Print(next));
    ElementText("<" + tag + ">", Print(children), "<" + ("/" + name + closing) + ">", Print(next), rest);
  }

  lemma LexElement(name: string, attributes: seq<Attribute>, space: string, children: Doc, closing: string,
                   next: Doc, rest: string)
    requires GoodTag(name, attributes, space)
    ensures Lex(Print(Element(name, attributes, space, children, closing, next)) + rest) ==
            Prepend([Open(name)], Lex(Print(children) + EndText(name, closing, next, rest)))
  {
    PrintedElement(name, attributes, space, children, closing, next, rest);
    LexOpen(name, attributes, space, Print(children) + EndText(name, closing, next, rest));
  }

  /** The scanner reads every printed document back as its tokens. */
  lemma {:induction false} LexPrint(d: Doc, rest: string)
    requires Printable(d)
    ensures Lex(Print(d) + rest) == Prepend(Tokens(d), Lex(rest))
    decreases d
  {
    match d
    case End =>
      assert Print(d) + rest == rest;
      PrependNothing(Lex(rest));
    case Empty(name, attributes, space, next) =>
      LexEmpty(name, attributes, space, next, rest);
      LexPrint(next, rest);
      PrependTwice([Alone(name)], Tokens(next), Lex(rest));
    case Element(name, attributes, space, children, closing, next) =>
      LexElement(name, attributes, space, children, closing, next, rest);
      LexEnd(name, closing, next, rest);
      LexPrint(children, EndText(name, closing, next, rest));
      LexPrint(next, rest);
      ElementTokens(name, Tokens(children), Tokens(next), Lex(rest));
    case _ =>
      LexMisc(d, rest);
      LexPrint(d.next, rest);
      PrependTwice(Shown(d), Tokens(d.next), Lex(rest));
      assert [] + Tokens(d.next) == Tokens(d.next);
  }
}
