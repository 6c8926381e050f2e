/** The recursive scanner with its shared cursor, proved to compute the functions of JsonKeys. */
module JsonScanner {
  import opened Wrappers
  import opened JsonKeys

  /** A key that is new and its value: the key and what remains. */
  function Member(s: string, depth: nat, keys: set<string>, decode: Decoder): (r: Option<(string, string)>)
    ensures r.Some? ==> |r.value.1| < |s|
  {
    var k := Key(s, keys, decode);
    if k.None? then None
    else
      var v := Value(k.value.1, depth + 1, decode);
      if v.None? then None else Some((k.value.0, v.value))
  }

  /** What follows an element or a member: whether the container ends, and what remains. */
  function Separator(s: string, close: char): Option<(bool, string)> {
    var t := SkipWhite(s);
    if t == "" then None
    else if t[0] == close then Some((true, t[1..]))
    else if t[0] == ',' then Some((false, t[1..]))
    else None
  }

  /** One turn of the loop over the members of an object. */
  lemma MembersTurn(s: string, depth: nat, keys: set<string>, decode: Decoder)
    ensures Members(s, depth, keys, decode) ==
            var m := Member(s, depth, keys, decode);
            if m.None? then None
            else
              match Separator(m.value.1, '}')
              case None => None
              case Some((end, t)) => if end then Some(t) else Members(t, depth, keys + {m.value.0}, decode)
  {
  }

  /** One turn of the loop over the elements of an array. */
  lemma ItemsTurn(s: string, depth: nat, decode: Decoder)
    ensures Items(s, depth, decode) ==
            var v := Value(s, depth + 1, decode);
            if v.None? then None
            else
              match Separator(v.value, ']')
              case None => None
              case Some((end, t)) => if end then Some(t) else Items(t, depth, decode)
  {
  }

  class Scanner {
    const source: string
    const decode: Decoder
    var cursor: nat

    constructor (source: string, decode: Decoder)
      ensures this.source == source && this.decode == decode && cursor == 0
    {
      this.source, this.decode, cursor := source, decode, 0;
    }

    predicate Inside()
      reads this`cursor
    {
      cursor <= |source|
    }

    function Rest(): string
      reads this`cursor
      requires Inside()
    {
      source[cursor..]
    }

    method SkipWhitespace()
      requires Inside()
      modifies this`cursor
      ensures Inside() && old(cursor) <= cursor && Rest() == SkipWhite(old(Rest()))
    {
      while cursor < |source| && White(source[cursor])
        invariant old(cursor) <= cursor <= |source|
        invariant SkipWhite(source[cursor..]) == SkipWhite(old(Rest()))
        decreases |source| - cursor
      {
        assert source[cursor..][1..] == source[cursor + 1..];
        cursor := cursor + 1;
      }
    }

    /** The literal at the cursor, whatever its escapes; None when it is unterminated or does
        not decode. */
    method ParseString() returns (text: Option<string>)
      requires Inside() && Rest() != ""
      modifies this`cursor
      ensures Inside() && old(cursor) < cursor
      ensures var r := old(Rest());
              forall n :: 0 <= n <= |r| && IsLiteral(r[..n]) ==> text == decode(r[..n]) && Rest() == r[n..]
      ensures var r := old(Rest());
              r[0] == '"' && (forall n :: 0 <= n <= |r| ==> !IsLiteral(r[..n])) ==> text.None?
      ensures var n := LiteralLength(old(Rest()));
              if n.None? then text.None?
              else text == decode(old(Rest())[..n.value]) && Rest() == old(Rest())[n.value..]
    {
      ghost var r := Rest();
      text := ScanString();
      forall n | 0 <= n <= |r| && r[0] == '"'
        ensures LiteralLength(r) == Some(n) <==> IsLiteral(r[..n])
      {
        LiteralExactly(r, n);
      }
    }

    /** The loop, in terms of the specified length. */
    method ScanString() returns (text: Option<string>)
      requires Inside() && Rest() != ""
      modifies this`cursor
      ensures Inside() && old(cursor) < cursor
      ensures var n := LiteralLength(old(Rest()));
              if n.None? then text.None?
              else text == decode(old(Rest())[..n.value]) && Rest() == old(Rest())[n.value..]
    {
      var start := cursor;
      ghost var was := Rest();
      cursor := cursor + 1;
      var escaped := false;
      assert source[cursor..] == was[1..];
      while cursor < |source|
        invariant start < cursor <= |source|
        invariant match CloseQuote(source[cursor..], escaped)
                  case None => LiteralLength(was).None?
                  case Some(n) => LiteralLength(was) == Some(cursor - start + n)
        decreases |source| - cursor
      {
        var character := source[cursor];
        assert source[cursor..][1..] == source[cursor + 1..];
        cursor := cursor + 1;
        if escaped {
          escaped := false;
        } else if character == '\\' {
          escaped := true;
        } else if character == '"' {
          assert was[..cursor - start] == source[start..cursor];
          assert was[cursor - start..] == source[cursor..];
          return decode(source[start..cursor]);
        }
      }
      return None;
    }

    /** The character at the cursor. */
    predicate At(c: char)
      reads this`cursor
    {
      cursor < |source| && source[cursor] == c
    }

    method ParseValue(depth: nat) returns (ok: bool)
      requires Inside()
      modifies this`cursor
      ensures Inside() && old(cursor) <= cursor
      ensures ok <==> Value(old(Rest()), depth, decode).Some?
      ensures ok ==> old(cursor) < cursor && Rest() == Value(old(Rest()), depth, decode).value
      decreases |source| - cursor, 1
    {
      ghost var was := Rest();
      SkipWhitespace();
      SkipTwice(was);
      SkipsFirst(was, Rest(), depth, {}, decode);
      if At('{') || At('[') {
        ok := ParseContainer(depth);
        return;
      }
      if At('"') {
        var text := ParseString();
        return text.Some?;
      }
      ok := ParseAtom();
    }

    /** A number or a word: everything up to white space or a delimiter. */
    method ParseAtom() returns (ok: bool)
      requires Inside()
      modifies this`cursor
      ensures Inside() && old(cursor) <= cursor && (ok <==> old(cursor) < cursor)
      ensures ok <==> AtomLength(old(Rest())) > 0
      ensures Rest() == old(Rest())[AtomLength(old(Rest()))..]
    {
      var start := cursor;
      ghost var was := Rest();
      while cursor < |source| && !EndsAtom(source[cursor])
        invariant start <= cursor <= |source|
        invariant AtomLength(was) == cursor - start + AtomLength(source[cursor..])
        decreases |source| - cursor
      {
        assert source[cursor..][1..] == source[cursor + 1..];
        cursor := cursor + 1;
      }
      assert was[cursor - start..] == source[cursor..];
      return cursor != start;
    }

    /** An object or an array, from its opening bracket. */
    method ParseContainer(depth: nat) returns (ok: bool)
      requires Inside() && (At('{') || At('['))
      modifies this`cursor
      ensures Inside() && old(cursor) <= cursor
      ensures ok <==> Value(old(Rest()), depth, decode).Some?
      ensures ok ==> old(cursor) < cursor && Rest() == Value(old(Rest()), depth, decode).value
      decreases |source| - cursor, 0
    {
      ghost var t := Rest();
      NotWhite(t);
      var braces := source[cursor] == '{';
      if depth >= DEEPEST {
        return false;
      }
      cursor := cursor + 1;
      assert Rest() == t[1..];
      SkipWhitespace();
      ghost var u := Rest();
      if At(if braces then '}' else ']') {
        cursor := cursor + 1;
        assert Rest() == u[1..];
        return true;
      }
      if braces {
        ok := ParseMembers(depth);
      } else {
        ok := ParseItems(depth);
      }
    }

    lemma NotWhite(t: string)
      requires t != "" && (t[0] == '{' || t[0] == '[')
      ensures SkipWhite(t) == t
    {
    }

    method ParseItems(depth: nat) returns (ok: bool)
      requires Inside()
      modifies this`cursor
      ensures Inside() && old(cursor) <= cursor
      ensures ok <==> Items(old(Rest()), depth, decode).Some?
      ensures ok ==> Rest() == Items(old(Rest()), depth, decode).value
      decreases |source| - cursor, 2
    {
      ghost var was := Rest();
      while true
        invariant Inside() && old(cursor) <= cursor
        invariant Items(was, depth, decode) == Items(Rest(), depth, decode)
        decreases |source| - cursor
      {
        ItemsTurn(Rest(), depth, decode);
        ok := ParseValue(depth + 1);
        if !ok {
          return;
        }
        var end := ParseSeparator(']');
        if end.None? {
          return false;
        }
        if end.value {
          return true;
        }
      }
    }

    /** The end of a container, which is consumed and reported, or a comma. */
    method ParseSeparator(close: char) returns (end: Option<bool>)
      requires Inside()
      modifies this`cursor
      ensures Inside() && old(cursor) <= cursor
      ensures match Separator(old(Rest()), close)
              case None => end.None?
              case Some((closed, rest)) => end == Some(closed) && old(cursor) < cursor && Rest() == rest
    {
      SkipWhitespace();
      ghost var t := Rest();
      if !At(close) && !At(',') {
        return None;
      }
      end := Some(At(close));
      cursor := cursor + 1;
      assert Rest() == t[1..];
    }

    method ParseMembers(depth: nat) returns (ok: bool)
      requires Inside()
      modifies this`cursor
      ensures Inside() && old(cursor) <= cursor
      ensures ok <==> Members(old(Rest()), depth, {}, decode).Some?
      ensures ok ==> Rest() == Members(old(Rest()), depth, {}, decode).value
      decreases |source| - cursor, 3
    {
      ghost var was := Rest();
      var keys: set<string> := {};
      while true
        invariant Inside() && old(cursor) <= cursor
        invariant Members(was, depth, {}, decode) == Members(Rest(), depth, keys, decode)
        decreases |source| - cursor
      {
        MembersTurn(Rest(), depth, keys, decode);
        var key := ParseMember(depth, keys);
        if key.None? {
          return false;
        }
        var end := ParseSeparator('}');
        if end.None? {
          return false;
        }
        if end.value {
          return true;
        }
        keys := keys + {key.value};
      }
    }

    /** A key and its value. */
    method ParseMember(depth: nat, keys: set<string>) returns (key: Option<string>)
      requires Inside()
      modifies this`cursor
      ensures Inside() && old(cursor) <= cursor
      ensures key.Some? <==> Member(old(Rest()), depth, keys, decode).Some?
      ensures key.Some? ==>
                old(cursor) < cursor && Member(old(Rest()), depth, keys, decode).value == (key.value, Rest())
      decreases |source| - cursor, 2
    {
      key := ParseKey(keys);
      if key.Some? {
        var ok := ParseValue(depth + 1);
        if !ok {
          return None;
        }
      }
    }

    method ParseKey(keys: set<string>) returns (key: Option<string>)
      requires Inside()
      modifies this`cursor
      ensures Inside() && old(cursor) <= cursor
      ensures key.Some? <==> Key(old(Rest()), keys, decode).Some?
      ensures key.Some? ==> old(cursor) < cursor && Key(old(Rest()), keys, decode).value == (key.value, Rest())
    {
      SkipWhitespace();
      if !At('"') {
        return None;
      }
      key := ParseString();
      if key.None? || key.value in keys {
        return None;
      }
      SkipWhitespace();
      if !At(':') {
        return None;
      }
      ghost var t := Rest();
      cursor := cursor + 1;
      assert Rest() == t[1..];
    }

    method AssertNoDuplicateObjectKeys() returns (ok: bool)
      requires cursor == 0
      modifies this`cursor
      ensures ok <==> Accepted(source, decode)
      ensures ok ==> cursor == |source|
    {
      assert Rest() == source;
      ok := ParseValue(0);
      if !ok {
        return;
      }
      SkipWhitespace();
      ok := cursor == |source|;
    }
  }
}
