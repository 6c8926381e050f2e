/** The scanning loop of the sensor configuration reader, proved to compute Extracted. */
module XmlExtractor {
  import opened Wrappers
  import opened XmlText
  import opened XmlFields

  /** std::string_view::find from a position. */
  function FindFrom(xml: string, pattern: string, start: nat): (r: Option<nat>)
    requires start <= |xml|
    ensures r.Some? ==> start <= r.value && r.value + |pattern| <= |xml|
  {
    var r := Find(xml[start..], pattern);
    if r.None? then None else Some(start + r.value)
  }

  method TrimWhite(value: string) returns (r: string)
    ensures r == Trim(value)
  {
    r := value;
    while r != "" && White(r[0])
      invariant TrimLeft(r) == TrimLeft(value)
      decreases |r|
    {
      r := r[1..];
    }
    while r != "" && White(r[|r| - 1])
      invariant TrimRight(r) == Trim(value)
      decreases |r|
    {
      r := r[..|r| - 1];
    }
  }

  /** The end of a tag from a position on. */
  function TagEndFrom(xml: string, start: nat): (r: Option<nat>)
    requires start <= |xml|
    ensures r.Some? ==> start <= r.value < |xml|
  {
    var r := TagEnd(xml[start..], None);
    if r.None? then None else Some(start + r.value)
  }

  method FindTagEnd(xml: string, start: nat) returns (end: Option<nat>)
    requires start <= |xml|
    ensures end == TagEndFrom(xml, start)
  {
    var quote: Option<char> := None;
    var position := start;
    while position < |xml|
      invariant start <= position <= |xml|
      invariant TagEnd(xml[start..], None) == Plus(position - start, TagEnd(xml[position..], quote))
    {
      var character := xml[position];
      TagEndFirst(xml, position, quote);
      if quote.Some? {
        if character == quote.value {
          quote := None;
        }
      } else if character == '\'' || character == '"' {
        quote := Some(character);
      } else if character == '>' {
        return Some(position);
      }
      position := position + 1;
    }
    return None;
  }

  lemma TagEndFirst(xml: string, position: nat, quote: Option<char>)
    requires position < |xml|
    ensures TagEnd(xml[position..], quote) ==
            if quote.None? && xml[position] == '>' then Some(0)
            else
              var next := if quote.Some? then (if xml[position] == quote.value then None else quote)
                          else if xml[position] in "'\"" then Some(xml[position]) else None;
              Plus(1, TagEnd(xml[position + 1..], next))
  {
    assert xml[position..][0] == xml[position] && xml[position..][1..] == xml[position + 1..];
  }

  lemma {:induction false} FindBracket(s: string)
    ensures Find(s, "<").None? ==> '<' !in s
    ensures Find(s, "<").Some? ==> s[Find(s, "<").value] == '<' && '<' !in s[..Find(s, "<").value]
    decreases |s|
  {
    if s != "" && s[0] != '<' {
      FindBracket(s[1..]);
      assert s == [s[0]] + s[1..];
      if Find(s[1..], "<").Some? {
        var n := Find(s[1..], "<").value;
        assert s[..n + 1] == [s[0]] + s[1..][..n];
      }
    }
  }

  /** Text outside markup goes to the innermost required field. */
  lemma ParsedText(text: string, tail: string, st: State)
    requires '<' !in text
    ensures Parsed(Lex(text + tail), st) == Parsed(Lex(tail), AddText(st, text))
  {
    LexText(text, tail);
    var rest := Lex(tail);
    if rest.Some? {
      FoldConcat(Chars(text), rest.value, st);
      FoldChars(text, st);
    }
  }

  lemma LexNext(s: string, piece: Piece, tail: string)
    requires s != "" && s[0] == '<' && Markup(s) == Some(piece) && tail == s[piece.length..]
    ensures Lex(s) == Prepend(piece.tokens, Lex(tail))
  {
  }

  lemma ParsedPiece(tokens: seq<Token>, rest: Option<seq<Token>>, st: State)
    ensures Parsed(Prepend(tokens, rest), st) ==
            match Fold(tokens, st)
            case None => None
            case Some(r) => Parsed(rest, r)
  {
    if rest.Some? {
      FoldConcat(tokens, rest.value, st);
    }
  }

  lemma FoldOne(t: Token, st: State)
    ensures Fold([t], st) == Take(st, t)
  {
    if Take(st, t).Some? {
      assert [t][1..] == [];
    }
  }

  /** The first name in a tag, as find_first_of and substr give it. */
  method TagName(tag: string) returns (name: string)
    ensures name == NameOf(tag)
  {
    var i := 0;
    assert tag[0..] == tag;
    while i < |tag| && !White(tag[i])
      invariant 0 <= i <= |tag|
      invariant NameOf(tag) == tag[..i] + NameOf(tag[i..])
    {
      assert tag[i..][1..] == tag[i + 1..];
      assert tag[..i] + [tag[i]] == tag[..i + 1];
      i := i + 1;
    }
    assert tag[..i] + "" == tag[..i];
    return tag[..i];
  }

  /** What the tag does to the state. */
  function TagTaken(tag: string, st: State): Option<State> {
    var token := TagToken(tag);
    if token.None? then None else Take(st, token.value)
  }

  /** The tag between '<' and '>': what it does to the state. */
  method TakeTag(tag: string, st: State) returns (r: Option<State>)
    ensures r == TagTaken(tag, st)
  {
    if tag == "" {
      return None;
    }
    if tag[0] == '/' {
      var name := TrimWhite(tag[1..]);
      if name == "" || (exists c <- name :: White(c) || c == '/') || st.elements == [] ||
         st.elements[|st.elements| - 1] != name {
        return None;
      }
      return Some(st.(elements := st.elements[..|st.elements| - 1]));
    }
    var alone := tag[|tag| - 1] == '/';
    var body := tag;
    if alone {
      body := TrimWhite(tag[..|tag| - 1]);
    }
    var name := TagName(body);
    if name == "" || name[0] == '/' {
      return None;
    }
    var index := RequiredIndex(name);
    if Inside(st).Some? {
      return None;
    }
    var next := st;
    if index.Some? {
      if next.seen[index.value] {
        return None;
      }
      next := next.(seen := next.seen[index.value := true]);
    }
    if !alone {
      next := next.(elements := next.elements + [name]);
    }
    return Some(next);
  }

  /** What one piece of markup does to the state. */
  function PieceTaken(piece: Option<Piece>, st: State): Option<State> {
    if piece.None? then None else Fold(piece.value.tokens, st)
  }

  /** A markup was taken: the state is what its tokens make of it, the position after it. */
  ghost predicate Took(piece: Option<Piece>, markup: nat, st: State, r: Option<State>, position: nat) {
    r == PieceTaken(piece, st) && (r.Some? ==> position == markup + piece.value.length)
  }

  lemma TailOfTail(s: string, i: nat, n: nat)
    requires i + n <= |s|
    ensures s[i..][n..] == s[i + n..]
  {
  }

  /** Comments and processing instructions: where the text goes on after the terminator. */
  method SkipMarkup(xml: string, start: nat, terminator: string) returns (position: Option<nat>)
    requires start <= |xml|
    ensures position == AfterSkip(xml, start, terminator)
  {
    var end := FindFrom(xml, terminator, start);
    if end.None? {
      return None;
    }
    return Some(end.value + |terminator|);
  }

  function AfterSkip(xml: string, start: nat, terminator: string): Option<nat>
    requires start <= |xml|
  {
    var end := FindFrom(xml, terminator, start);
    if end.None? then None else Some(end.value + |terminator|)
  }

  /** A piece without tokens that ends at a position. */
  function SkippedTo(markup: nat, position: Option<nat>): Option<Piece>
    requires position.Some? ==> markup <= position.value
  {
    if position.None? then None else Some(Piece([], position.value - markup))
  }

  lemma CommentMarkup(xml: string, markup: nat)
    requires markup < |xml| && "<!--" <= xml[markup..]
    ensures Markup(xml[markup..]) == SkippedTo(markup, AfterSkip(xml, markup + 4, "-->"))
  {
    assert xml[markup..][0] == '<';
    TailOfTail(xml, markup, 4);
  }

  lemma InstructionMarkup(xml: string, markup: nat)
    requires markup < |xml| && "<?" <= xml[markup..]
    ensures Markup(xml[markup..]) == SkippedTo(markup, AfterSkip(xml, markup + 2, "?>"))
  {
    assert xml[markup..][0] == '<' && xml[markup..][1] == '?';
    TailOfTail(xml, markup, 2);
  }

  /** The piece that a CDATA section is, given the position of its terminator. */
  function CdataPiece(xml: string, markup: nat, end: Option<nat>): Option<Piece>
    requires end.Some? ==> markup + 9 <= end.value <= |xml|
  {
    if end.None? then None else Some(Piece(Chars(xml[markup + 9..end.value]), end.value + 3 - markup))
  }

  lemma CdataMarkup(xml: string, markup: nat)
    requires markup < |xml| && "<![CDATA[" <= xml[markup..]
    ensures xml[markup] == '<'
    ensures Markup(xml[markup..]) == CdataPiece(xml, markup, FindFrom(xml, "]]>", markup + 9))
  {
    var s := xml[markup..];
    assert s[0] == '<' && s[2] == '[';
    TailOfTail(xml, markup, 9);
    var end := FindFrom(xml, "]]>", markup + 9);
    if end.Some? {
      assert s[9..][..end.value - markup - 9] == xml[markup + 9..end.value];
    }
  }

  method TakeCdata(xml: string, markup: nat, st: State) returns (r: Option<State>, position: nat)
    requires markup + 9 <= |xml|
    ensures Took(CdataPiece(xml, markup, FindFrom(xml, "]]>", markup + 9)), markup, st, r, position)
  {
    position := markup;
    var end := FindFrom(xml, "]]>", markup + 9);
    if end.None? {
      return None, position;
    }
    position := end.value + 3;
    FoldChars(xml[markup + 9..end.value], st);
    return Some(AddText(st, xml[markup + 9..end.value])), position;
  }

  /** The piece that an element tag is, given the position of its end. */
  function TagPiece(xml: string, markup: nat, end: Option<nat>): Option<Piece>
    requires end.Some? ==> markup < end.value < |xml|
  {
    if end.None? then None
    else
      var token := TagToken(Trim(xml[markup + 1..end.value]));
      if token.None? then None else Some(Piece([token.value], end.value + 1 - markup))
  }

  lemma TagMarkupAt(xml: string, markup: nat)
    requires markup < |xml| && xml[markup] == '<'
    requires !("<!" <= xml[markup..]) && !("<?" <= xml[markup..])
    ensures Markup(xml[markup..]) == TagPiece(xml, markup, TagEndFrom(xml, markup + 1))
  {
    var s := xml[markup..];
    NoSpecial(s);
    TailOfTail(xml, markup, 1);
    var end := TagEndFrom(xml, markup + 1);
    if end.Some? {
      assert s[1..][..end.value - markup - 1] == xml[markup + 1..end.value];
    }
  }

  lemma NoSpecial(s: string)
    requires !("<!" <= s)
    ensures !("<!--" <= s) && !("<![CDATA[" <= s)
  {
  }

  method TakeElementTag(xml: string, markup: nat, st: State) returns (r: Option<State>, position: nat)
    requires markup < |xml| && xml[markup] == '<'
    ensures Took(TagPiece(xml, markup, TagEndFrom(xml, markup + 1)), markup, st, r, position)
  {
    var end := FindTagEnd(xml, markup + 1);
    position := markup;
    if end.None? {
      return None, position;
    }
    position := end.value + 1;
    var tag := TrimWhite(xml[markup + 1..end.value]);
    r := TakeTag(tag, st);
    if TagToken(tag).Some? {
      FoldOne(TagToken(tag).value, st);
    }
  }

  /** One markup starting at a '<': the new state and position. */
  method TakeMarkup(xml: string, markup: nat, st: State) returns (r: Option<State>, position: nat)
    requires markup < |xml| && xml[markup] == '<'
    ensures Took(Markup(xml[markup..]), markup, st, r, position)
  {
    position := markup;
    var after: Option<nat>;
    if "<!--" <= xml[markup..] {
      CommentMarkup(xml, markup);
      after := SkipMarkup(xml, markup + 4, "-->");
    } else if "<![CDATA[" <= xml[markup..] {
      CdataMarkup(xml, markup);
      r, position := TakeCdata(xml, markup, st);
      return;
    } else if "<?" <= xml[markup..] {
      InstructionMarkup(xml, markup);
      after := SkipMarkup(xml, markup + 2, "?>");
    } else if "<!" <= xml[markup..] {
      return None, markup;
    } else {
      TagMarkupAt(xml, markup);
      r, position := TakeElementTag(xml, markup, st);
      return;
    }
    if after.None? {
      return None, position;
    }
    return Some(st), after.value;
  }

  /** What the text from a position on makes of a state. */
  function Reading(xml: string, position: nat, st: State): Option<State>
    requires position <= |xml|
  {
    Parsed(Lex(xml[position..]), st)
  }

  /** The next markup is the first bracket. */
  lemma BracketFrom(xml: string, position: nat)
    requires position <= |xml|
    ensures match FindFrom(xml, "<", position)
            case None => '<' !in xml[position..|xml|]
            case Some(markup) => xml[markup] == '<' && '<' !in xml[position..markup]
  {
    var rest := xml[position..];
    FindBracket(rest);
    assert xml[position..|xml|] == rest;
    var markup := FindFrom(xml, "<", position);
    if markup.Some? {
      assert rest[..markup.value - position] == xml[position..markup.value];
    }
  }

  /** The text up to the next markup, or to the end. */
  lemma ReadText(xml: string, position: nat, end: nat, st: State)
    requires position <= end <= |xml| && '<' !in xml[position..end]
    ensures Reading(xml, position, st) == Reading(xml, end, AddText(st, xml[position..end]))
  {
    assert xml[position..] == xml[position..end] + xml[end..];
    ParsedText(xml[position..end], xml[end..], st);
  }

  lemma ReadTo(xml: string, position: nat, markup: nat, st: State)
    requires position <= |xml| && FindFrom(xml, "<", position) == Some(markup)
    ensures markup < |xml| && xml[markup] == '<'
    ensures Reading(xml, position, st) == Reading(xml, markup, AddText(st, xml[position..markup]))
  {
    BracketFrom(xml, position);
    ReadText(xml, position, markup, st);
  }

  /** A markup that was taken leaves the rest of the text to be read from the new state. */
  lemma ReadMarkup(xml: string, markup: nat, st: State, r: Option<State>, after: nat)
    requires markup < |xml| && xml[markup] == '<' && Took(Markup(xml[markup..]), markup, st, r, after)
    ensures r.None? ==> Reading(xml, markup, st).None?
    ensures r.Some? ==> markup < after <= |xml| && Reading(xml, markup, st) == Reading(xml, after, r.value)
  {
    var piece := Markup(xml[markup..]);
    if piece.Some? {
      ReadPiece(xml, markup, st, piece.value);
    }
  }

  lemma ReadPiece(xml: string, markup: nat, st: State, piece: Piece)
    requires markup < |xml| && xml[markup] == '<' && Markup(xml[markup..]) == Some(piece)
    ensures Reading(xml, markup, st) ==
            match Fold(piece.tokens, st)
            case None => None
            case Some(r) => Reading(xml, markup + piece.length, r)
  {
    var tail := xml[markup + piece.length..];
    TailOfTail(xml, markup, piece.length);
    LexNext(xml[markup..], piece, tail);
    ParsedPiece(piece.tokens, Lex(tail), st);
  }

  lemma ReadLast(xml: string, position: nat, st: State)
    requires position <= |xml| && FindFrom(xml, "<", position).None?
    ensures Reading(xml, position, st) == Some(AddText(st, xml[position..]))
  {
    BracketFrom(xml, position);
    ReadText(xml, position, |xml|, st);
    assert xml[position..|xml|] == xml[position..];
    ReadEnd(xml, AddText(st, xml[position..]));
  }

  lemma ReadEnd(xml: string, st: State)
    ensures Reading(xml, |xml|, st) == Some(st)
  {
    assert xml[|xml|..] == "";
  }

  lemma ReadAll(xml: string)
    ensures Extracted(xml) == var r := Reading(xml, 0, INIT); if r.None? then None else Finish(r.value)
  {
    assert xml[0..] == xml;
  }

  method ExtractRequiredFields(xml: string) returns (r: Option<seq<string>>)
    ensures r == Extracted(xml)
  {
    ReadAll(xml);
    var st: Option<State> := ScanDocument(xml);
    if st.None? || st.value.elements != [] {
      return None;
    }
    r := CollectFields(st.value);
  }

  /** One turn of the loop: the text before a markup and the markup. */
  method TakeNext(xml: string, position: nat, markup: nat, st: State) returns (r: Option<State>, after: nat)
    requires position <= |xml| && FindFrom(xml, "<", position) == Some(markup)
    ensures r.None? ==> Reading(xml, position, st).None?
    ensures r.Some? ==> position < after <= |xml| && Reading(xml, position, st) == Reading(xml, after, r.value)
  {
    ReadTo(xml, position, markup, st);
    var next := AddText(st, xml[position..markup]);
    r, after := TakeMarkup(xml, markup, next);
    ReadMarkup(xml, markup, next, r, after);
  }

  /** The scanning loop. */
  method ScanDocument(xml: string) returns (r: Option<State>)
    ensures r == Reading(xml, 0, INIT)
  {
    var st := INIT;
    var position := 0;
    while position < |xml|
      invariant 0 <= position <= |xml|
      invariant Reading(xml, position, st) == Reading(xml, 0, INIT)
    {
      var markup := FindFrom(xml, "<", position);
      if markup.None? {
        ReadLast(xml, position, st);
        return Some(AddText(st, xml[position..]));
      }
      var next;
      next, position := TakeNext(xml, position, markup.value, st);
      if next.None? {
        return None;
      }
      st := next.value;
    }
    ReadEnd(xml, st);
    return Some(st);
  }

  method CollectFields(st: State) returns (r: Option<seq<string>>)
    ensures r == Collected(Found(st))
  {
    var values: seq<string> := [];
    for index := 0 to FIELDS
      invariant Collected(Found(st)[..index]) == Some(values)
    {
      ghost var texts := Found(st)[..index + 1];
      assert texts[..index] == Found(st)[..index];
      if !st.seen[index] {
        if index == 0 {
          values := values + [DEFAULT_NAME];
          continue;
        }
        RefusedStays(Found(st), index);
        return None;
      }
      var value := TrimWhite(st.fields[index]);
      if value == "" || |value| > LONGEST {
        RefusedStays(Found(st), index);
        return None;
      }
      values := values + [value];
    }
    assert Found(st)[..FIELDS] == Found(st);
    return Some(values);
  }

  /** A refused field refuses the document. */
  lemma {:induction false} RefusedStays(texts: seq<Option<string>>, index: nat)
    requires index < |texts| && Field(index, texts[index]).None?
    ensures Collected(texts).None?
    decreases |texts|
  {
    if index < |texts| - 1 {
      RefusedStays(texts[..|texts| - 1], index);
    }
  }
}
