/** Splitting byte streams into lines: the command framer of the companion, which takes one
    byte at a time, and the framer of its supervisor, which takes chunks. */
module LineFraming {
  import opened Wrappers
  import Sequences

  type Byte = b: int | 0 <= b < 256

  type Bytes = seq<Byte>

  const LF: Byte := 10
  const CR: Byte := 13
  const LIMIT: nat := 1024 * 1024

  /** The complete lines of a stream, without their LF, and what follows the last LF. */
  datatype Parts = Parts(lines: seq<Bytes>, rest: Bytes)

  function Split(s: Bytes): Parts {
    if s == [] then Parts([], [])
    else
      var p, c := Split(s[..|s| - 1]), s[|s| - 1];
      if c == LF then Parts(p.lines + [p.rest], []) else p.(rest := p.rest + [c])
  }

  function Joined(lines: seq<Bytes>): Bytes {
    if lines == [] then [] else Joined(lines[..|lines| - 1]) + lines[|lines| - 1] + [LF]
  }

  lemma SplitSnoc(s: Bytes, c: Byte)
    ensures var p := Split(s);
            Split(s + [c]) == if c == LF then Parts(p.lines + [p.rest], []) else p.(rest := p.rest + [c])
  {
    assert (s + [c])[..|s|] == s;
  }

  lemma JoinedSnoc(lines: seq<Bytes>, line: Bytes)
    ensures Joined(lines + [line]) == Joined(lines) + line + [LF]
  {
    assert (lines + [line])[..|lines|] == lines;
  }

  /** Splitting only takes out the LFs. */
  lemma {:induction false} SplitIsFaithful(s: Bytes)
    ensures var p := Split(s);
            Joined(p.lines) + p.rest == s && LF !in p.rest && forall line <- p.lines :: LF !in line
    decreases |s|
  {
    if s != [] {
      var init, c := s[..|s| - 1], s[|s| - 1];
      SplitIsFaithful(init);
      var p := Split(init);
      assert s == init + [c];
      if c == LF {
        JoinedSnoc(p.lines, p.rest);
        assert Joined(p.lines) + p.rest + [LF] + [] == s;
      } else {
        Sequences.Associate(Joined(p.lines), p.rest, [c]);
      }
    }
  }

  lemma {:induction false} SplitPlain(s: Bytes, tail: Bytes)
    requires LF !in tail
    ensures Split(s + tail) == Split(s).(rest := Split(s).rest + tail)
    decreases |tail|
  {
    if tail == [] {
      assert s + tail == s && Split(s).rest + [] == Split(s).rest;
    } else {
      var init, c := tail[..|tail| - 1], tail[|tail| - 1];
      assert tail == init + [c];
      SplitPlain(s, init);
      Sequences.Associate(s, init, [c]);
      SplitSnoc(s + init, c);
      Sequences.Associate(Split(s).rest, init, [c]);
    }
  }

  /** Lines and rest determine the stream and the stream determines them. */
  lemma {:induction false} SplitOfJoined(lines: seq<Bytes>, rest: Bytes)
    requires LF !in rest && forall line <- lines :: LF !in line
    ensures Split(Joined(lines) + rest) == Parts(lines, rest)
    decreases |lines|
  {
    SplitPlain(Joined(lines), rest);
    if lines == [] {
      assert [] + rest == rest && Joined(lines) == [];
    } else {
      var init, last := lines[..|lines| - 1], lines[|lines| - 1];
      assert lines == init + [last];
      SplitOfJoined(init, last);
      SplitSnoc(Joined(init) + last, LF);
      assert [] + rest == rest;
    }
  }

  // The command framer.

  /** A framed line; an oversized one has lost its bytes. */
  datatype Line = Line(value: Bytes, oversized: bool)

  function LineOf(content: Bytes): Line {
    if |content| > LIMIT then Line([], true) else Line(content, false)
  }

  /** What a line ended by LF means: one CR before the LF belongs to the line end. */
  function Stripped(line: Bytes): Bytes {
    if line != [] && line[|line| - 1] == CR then line[..|line| - 1] else line
  }

  class LineFramer {
    var value: Bytes
    var oversized: bool
    var pendingReturn: bool
    ghost var line: Bytes

    /** The framer holds the bytes of the line so far, less a CR that may belong to its end,
        and never more than the limit. */
    ghost predicate Valid()
      reads this
    {
      |value| <= LIMIT && (pendingReturn <==> line != Stripped(line)) &&
      Line(value, oversized) == LineOf(Stripped(line))
    }

    constructor ()
      ensures Valid() && line == []
    {
      value, oversized, pendingReturn, line := [], false, false, [];
    }

    method Append(c: Byte, ghost content: Bytes)
      requires Line(value, oversized) == LineOf(content)
      modifies this`value, this`oversized
      ensures Line(value, oversized) == LineOf(content + [c])
    {
      if !oversized {
        if |value| < LIMIT {
          value := value + [c];
        } else {
          value := [];
          oversized := true;
        }
      }
    }

    /** After this nothing is held back: the whole line is committed. */
    method CommitPendingReturn()
      requires Valid()
      modifies this`value, this`oversized, this`pendingReturn
      ensures !pendingReturn && Line(value, oversized) == LineOf(line)
    {
      if pendingReturn {
        Append(CR, Stripped(line));
        assert Stripped(line) + [CR] == line;
        pendingReturn := false;
      }
    }

    method Take() returns (r: Line)
      modifies this`value, this`oversized
      ensures r == old(Line(value, oversized)) && value == [] && !oversized
    {
      r := Line(value, oversized);
      value := [];
      oversized := false;
    }

    method Push(c: Byte) returns (r: Option<Line>)
      requires Valid()
      modifies this
      ensures Valid()
      ensures line == if c == LF then [] else old(line) + [c]
      ensures r == if c == LF then Some(LineOf(Stripped(old(line)))) else None
    {
      if c == LF {
        pendingReturn := false;
        var taken := Take();
        line := [];
        return Some(taken);
      }
      CommitPendingReturn();
      line := line + [c];
      assert line[..|line| - 1] == old(line);
      if c == CR {
        pendingReturn := true;
        return None;
      }
      Append(c, old(line));
      return None;
    }

    /** The end of the input: a last line without LF keeps its CR. */
    method Finish() returns (r: Option<Line>)
      requires Valid()
      modifies this
      ensures Valid() && line == []
      ensures r == if old(line) == [] then None else Some(LineOf(old(line)))
    {
      CommitPendingReturn();
      if value == [] && !oversized {
        line := [];
        return None;
      }
      var taken := Take();
      line := [];
      return Some(taken);
    }
  }

  function Framed(lines: seq<Bytes>): seq<Line> {
    seq(|lines|, i requires 0 <= i < |lines| => LineOf(Stripped(lines[i])))
  }

  lemma FramedSnoc(lines: seq<Bytes>, line: Bytes)
    ensures Framed(lines + [line]) == Framed(lines) + [LineOf(Stripped(line))]
  {
  }

  /** The split of the first n bytes. */
  function SplitTo(s: Bytes, n: nat): Parts
    requires n <= |s|
  {
    if n == 0 then Parts([], [])
    else
      var p := SplitTo(s, n - 1);
      if s[n - 1] == LF then Parts(p.lines + [p.rest], []) else p.(rest := p.rest + [s[n - 1]])
  }

  lemma {:induction false} SplitToIsSplit(s: Bytes, n: nat)
    requires n <= |s|
    ensures SplitTo(s, n) == Split(s[..n])
    decreases n
  {
    if n > 0 {
      SplitToIsSplit(s, n - 1);
      assert s[..n] == s[..n - 1] + [s[n - 1]];
      SplitSnoc(s[..n - 1], s[n - 1]);
    }
  }

  /** What has been read so far: the whole lines, framed, and the line begun. */
  ghost predicate ReadSoFar(p: Parts, lines: seq<Line>, line: Bytes) {
    lines == Framed(p.lines) && line == p.rest
  }

  /** The lines of a whole input, the last one without an LF. */
  function AllLines(input: Bytes): seq<Line> {
    var p := Split(input);
    Framed(p.lines) + if p.rest == [] then [] else [LineOf(p.rest)]
  }

  lemma ReadEnd(input: Bytes, lines: seq<Line>, line: Bytes)
    requires ReadSoFar(SplitTo(input, |input|), lines, line)
    ensures AllLines(input) == if line == [] then lines else lines + [LineOf(line)]
  {
    SplitToIsSplit(input, |input|);
    assert input[..|input|] == input;
  }

  /** One byte through the framer. */
  method ReadByte(framer: LineFramer, input: Bytes, i: nat, before: seq<Line>) returns (lines: seq<Line>)
    requires i < |input| && framer.Valid() && ReadSoFar(SplitTo(input, i), before, framer.line)
    modifies framer
    ensures framer.Valid() && ReadSoFar(SplitTo(input, i + 1), lines, framer.line)
  {
    FramedSnoc(SplitTo(input, i).lines, framer.line);
    var line := framer.Push(input[i]);
    lines := if line.Some? then before + [line.value] else before;
  }

  method ReadLines(framer: LineFramer, input: Bytes) returns (lines: seq<Line>)
    requires framer.Valid() && framer.line == []
    modifies framer
    ensures framer.Valid() && ReadSoFar(SplitTo(input, |input|), lines, framer.line)
  {
    lines := [];
    for i := 0 to |input|
      invariant framer.Valid() && ReadSoFar(SplitTo(input, i), lines, framer.line)
    {
      lines := ReadByte(framer, input, i, lines);
    }
  }

  /** The command reader: every byte through the framer, then the end. The lines it gets are
      those of the split stream. */
  method ReadAll(input: Bytes) returns (lines: seq<Line>)
    ensures lines == AllLines(input)
  {
    var framer := new LineFramer();
    lines := ReadLines(framer, input);
    ReadEnd(input, lines, framer.line);
    var last := framer.Finish();
    if last.Some? {
      lines := lines + [last.value];
    }
  }

  // The chunk framer.

  /** UTF-8 decoding; None for bytes that are not UTF-8. */
  type Decoder = Bytes -> Option<string>

  datatype Pushed = Pushed(buffer: Bytes, lines: seq<string>)

  function Prepend(line: string, r: Option<Pushed>): Option<Pushed> {
    if r.None? then None else Some(r.value.(lines := [line] + r.value.lines))
  }

  /** The position of the first LF, or the length. */
  function FirstNewline(s: Bytes): (n: nat)
    ensures n <= |s| && LF !in s[..n] && (n < |s| ==> s[n] == LF)
  {
    if s == [] || s[0] == LF then 0
    else
      var n := FirstNewline(s[1..]);
      assert s[..n + 1] == [s[0]] + s[1..][..n];
      n + 1
  }

  /** A chunk pushed on a buffer; None when the framer throws. */
  function PushChunk(buffer: Bytes, chunk: Bytes, decode: Decoder): Option<Pushed>
    decreases |chunk|
  {
    var n := FirstNewline(chunk);
    if |buffer| + n > LIMIT then None
    else if n == |chunk| then Some(Pushed(buffer + chunk, []))
    else
      var line := decode(buffer + chunk[..n]);
      if line.None? then None else Prepend(line.value, PushChunk([], chunk[n + 1..], decode))
  }

  class BoundedLineFramer {
    const decode: Decoder
    var chunks: seq<Bytes>
    var byteLength: nat

    function Buffer(): Bytes
      reads this
    {
      Concat(chunks)
    }

    predicate Valid()
      reads this
    {
      byteLength == |Concat(chunks)| <= LIMIT
    }

    constructor (decode: Decoder)
      ensures Valid() && Buffer() == [] && this.decode == decode
    {
      this.decode := decode;
      chunks, byteLength := [], 0;
    }

    method Reset()
      modifies this
      ensures Valid() && Buffer() == []
    {
      chunks, byteLength := [], 0;
    }

    method Push(input: Bytes) returns (r: Option<seq<string>>)
      requires Valid()
      modifies this
      ensures Valid()
      ensures r.None? <==> PushChunk(old(Buffer()), input, decode).None?
      ensures r.Some? ==> PushChunk(old(Buffer()), input, decode) == Some(Pushed(Buffer(), r.value))
    {
      var pending := input;
      var lines: seq<string> := [];
      ghost var whole := PushChunk(Buffer(), input, decode);
      ghost var none: seq<string> := [];
      PrependNone(whole);
      while pending != []
        invariant Valid()
        invariant whole == PrependAll(lines, PushChunk(Buffer(), pending, decode))
        decreases |pending|
      {
        var newline := FirstNewline(pending);
        var part := pending[..newline];
        if byteLength + |part| > LIMIT {
          Reset();
          return None;
        }
        ghost var before := Buffer();
        if |part| > 0 {
          ConcatSnoc(chunks, part);
          chunks := chunks + [part];
          byteLength := byteLength + |part|;
        }
        assert Buffer() == before + part;
        if newline == |pending| {
          assert part == pending;
          PrependOnly(lines, Buffer());
          return Some(lines);
        }
        var line := decode(Concat(chunks));
        if line.None? {
          return None;
        }
        PrependMore(lines, line.value, PushChunk([], pending[newline + 1..], decode));
        lines := lines + [line.value];
        Reset();
        pending := pending[newline + 1..];
      }
      assert Buffer() + [] == Buffer();
      PrependOnly(lines, Buffer());
      return Some(lines);
    }
  }

  function Concat(chunks: seq<Bytes>): Bytes {
    if chunks == [] then [] else Concat(chunks[..|chunks| - 1]) + chunks[|chunks| - 1]
  }

  lemma ConcatSnoc(chunks: seq<Bytes>, chunk: Bytes)
    ensures Concat(chunks + [chunk]) == Concat(chunks) + chunk
  {
    assert (chunks + [chunk])[..|chunks|] == chunks;
  }

  function PrependAll(lines: seq<string>, r: Option<Pushed>): Option<Pushed> {
    if r.None? then None else Some(r.value.(lines := lines + r.value.lines))
  }

  lemma PrependNone(r: Option<Pushed>)
    ensures PrependAll([], r) == r
  {
    if r.Some? {
      assert [] + r.value.lines == r.value.lines;
    }
  }

  lemma PrependOnly(lines: seq<string>, buffer: Bytes)
    ensures PrependAll(lines, Some(Pushed(buffer, []))) == Some(Pushed(buffer, lines))
  {
    assert lines + [] == lines;
  }

  lemma PrependMore(lines: seq<string>, line: string, r: Option<Pushed>)
    ensures PrependAll(lines, Prepend(line, r)) == PrependAll(lines + [line], r)
  {
    if r.Some? {
      Sequences.Associate(lines, [line], r.value.lines);
    }
  }

  /** What a stream is framed into, however it is cut into chunks. */
  function Decoded(lines: seq<Bytes>, decode: Decoder): Option<seq<string>> {
    if lines == [] then Some([])
    else
      var before, last := Decoded(lines[..|lines| - 1], decode), lines[|lines| - 1];
      var text := decode(last);
      if before.None? || |last| > LIMIT || text.None? then None else Some(before.value + [text.value])
  }

  /** The meaning of a stream: its lines decoded, unless a line, or what follows the last LF,
      is over the limit or a line is not UTF-8. */
  function Meaning(stream: Bytes, decode: Decoder): Option<Pushed> {
    var p := Split(stream);
    var lines := Decoded(p.lines, decode);
    if lines.None? || |p.rest| > LIMIT then None else Some(Pushed(p.rest, lines.value))
  }

  /** The framer fed with chunks one after another; None once it has thrown. */
  function PushAll(chunks: seq<Bytes>, decode: Decoder): Option<Pushed> {
    if chunks == [] then Some(Pushed([], []))
    else
      var r := PushAll(chunks[..|chunks| - 1], decode);
      if r.None? then None
      else PrependAll(r.value.lines, PushChunk(r.value.buffer, chunks[|chunks| - 1], decode))
  }

  lemma CutChunk(stream: Bytes, chunk: Bytes, n: nat)
    requires n < |chunk| && chunk[n] == LF
    ensures stream + chunk == stream + chunk[..n] + [LF] + chunk[n + 1..]
  {
    assert chunk == chunk[..n] + [LF] + chunk[n + 1..];
    Sequences.Associate(chunk[..n], [LF], chunk[n + 1..]);
    Sequences.Associate(stream, chunk[..n], [LF] + chunk[n + 1..]);
    Sequences.Associate(stream + chunk[..n], [LF], chunk[n + 1..]);
  }

  /** One chunk more, in terms of the stream so far. */
  lemma {:induction false} ChunkMeans(stream: Bytes, chunk: Bytes, decode: Decoder)
    requires Meaning(stream, decode).Some?
    ensures var m := Meaning(stream, decode).value;
            Meaning(stream + chunk, decode) == PrependAll(m.lines, PushChunk(m.buffer, chunk, decode))
    decreases |chunk|
  {
    var m := Meaning(stream, decode).value;
    var n := FirstNewline(chunk);
    var part := chunk[..n];
    SplitPlain(stream, part);
    if n == |chunk| {
      assert part == chunk;
      PrependOnly(m.lines, m.buffer + chunk);
    } else {
      var next := stream + part + [LF];
      var rest := chunk[n + 1..];
      CutChunk(stream, chunk, n);
      SplitSnoc(stream + part, LF);
      var line := m.buffer + part;
      assert Split(next) == Parts(Split(stream).lines + [line], []);
      DecodedSnoc(Split(stream).lines, line, decode);
      if Meaning(next, decode).Some? {
        ChunkMeans(next, rest, decode);
        PrependMore(m.lines, decode(line).value, PushChunk([], rest, decode));
      } else {
        RefusedStays(next, rest, decode);
      }
    }
  }

  lemma DecodedSnoc(lines: seq<Bytes>, line: Bytes, decode: Decoder)
    ensures Decoded(lines + [line], decode) ==
            if Decoded(lines, decode).None? || |line| > LIMIT || decode(line).None? then None
            else Some(Decoded(lines, decode).value + [decode(line).value])
  {
    assert (lines + [line])[..|lines|] == lines;
  }

  /** A stream that is refused stays refused. */
  lemma {:induction false} RefusedStays(stream: Bytes, more: Bytes, decode: Decoder)
    requires Meaning(stream, decode).None?
    ensures Meaning(stream + more, decode).None?
    decreases |more|
  {
    if more == [] {
      assert stream + more == stream;
    } else {
      var init, c := more[..|more| - 1], more[|more| - 1];
      RefusedStays(stream, init, decode);
      assert more == init + [c];
      Sequences.Associate(stream, init, [c]);
      var p := Split(stream + init);
      SplitSnoc(stream + init, c);
      DecodedSnoc(p.lines, p.rest, decode);
    }
  }

  /** The lines and the refusal depend on the stream only, not on how it is cut. */
  lemma {:induction false} ChunkingDoesNotMatter(chunks: seq<Bytes>, decode: Decoder)
    ensures PushAll(chunks, decode) == Meaning(Concat(chunks), decode)
    decreases |chunks|
  {
    if chunks != [] {
      var init, last := chunks[..|chunks| - 1], chunks[|chunks| - 1];
      ChunkingDoesNotMatter(init, decode);
      if Meaning(Concat(init), decode).Some? {
        ChunkMeans(Concat(init), last, decode);
      } else {
        RefusedStays(Concat(init), last, decode);
      }
    }
  }

  // Streams that are written line by line.

  /** Lines as they are sent: each ended by LF, or by CR and LF. */
  function Sent(contents: seq<Bytes>, crs: seq<bool>): seq<Bytes>
    requires |contents| == |crs|
  {
    seq(|contents|, i requires 0 <= i < |contents| => contents[i] + if crs[i] then [13] else [])
  }

  function Stream(contents: seq<Bytes>, crs: seq<bool>): Bytes
    requires |contents| == |crs|
  {
    if contents == [] then []
    else
      var n := |contents| - 1;
      Stream(contents[..n], crs[..n]) + contents[n] + (if crs[n] then [13] else []) + [10]
  }

  lemma {:induction false} StreamIsJoined(contents: seq<Bytes>, crs: seq<bool>)
    requires |contents| == |crs|
    ensures Stream(contents, crs) == Joined(Sent(contents, crs))
    decreases |contents|
  {
    if contents != [] {
      var n := |contents| - 1;
      StreamIsJoined(contents[..n], crs[..n]);
      assert Sent(contents, crs)[..n] == Sent(contents[..n], crs[..n]);
      Sequences.Associate(Stream(contents[..n], crs[..n]), contents[n], if crs[n] then [13] else []);
    }
  }

  /** A line is framed as it was meant: its bytes, or a mark if they are more than a mebibyte. */
  predicate Frames(line: Line, content: Bytes) {
    line == if |content| > 1048576 then Line([], true) else Line(content, false)
  }

  /** A line that can be sent: without an LF, and not ending in a CR that would be taken for
      part of the line end. */
  predicate Sendable(content: Bytes, cr: bool) {
    10 !in content && (content != [] && content[|content| - 1] == 13 ==> cr)
  }

  lemma SentIsStripped(content: Bytes, cr: bool)
    requires Sendable(content, cr)
    ensures Stripped(content + if cr then [13] else []) == content
  {
    if cr {
      assert (content + [13])[..|content|] == content;
    } else {
      assert content + [] == content;
    }
  }

  /** The command reader gives back the lines that were sent, with or without CR before their
      LF, and what follows the last of them, each cut to a mark if it is longer than a mebibyte. */
  lemma StreamIsRead(contents: seq<Bytes>, crs: seq<bool>, last: Bytes)
    requires |contents| == |crs| && 10 !in last
    requires forall i :: 0 <= i < |contents| ==> Sendable(contents[i], crs[i])
    ensures var lines := AllLines(Stream(contents, crs) + last);
            && |lines| == |contents| + (if last == [] then 0 else 1)
            && (forall i :: 0 <= i < |contents| ==> Frames(lines[i], contents[i]))
            && (last != [] ==> Frames(lines[|contents|], last))
  {
    var sent := Sent(contents, crs);
    StreamIsJoined(contents, crs);
    SplitOfJoined(sent, last);
    forall i | 0 <= i < |contents|
      ensures Frames(Framed(sent)[i], contents[i])
    {
      SentIsStripped(contents[i], crs[i]);
    }
  }

  /** The chunk framer decodes the lines that were sent, whatever their chunks, if none is longer
      than a mebibyte and each can be decoded, and holds what follows the last of them. */
  lemma {:induction false} LinesAreDecoded(lines: seq<Bytes>, texts: seq<string>, rest: Bytes, decode: Decoder)
    requires |lines| == |texts| && 10 !in rest && |rest| <= 1048576
    requires forall i :: 0 <= i < |lines| ==>
               10 !in lines[i] && |lines[i]| <= 1048576 && decode(lines[i]) == Some(texts[i])
    ensures Meaning(Joined(lines) + rest, decode) == Some(Pushed(rest, texts))
    decreases |lines|
  {
    SplitOfJoined(lines, rest);
    DecodedAre(lines, texts, decode);
  }

  lemma {:induction false} DecodedAre(lines: seq<Bytes>, texts: seq<string>, decode: Decoder)
    requires |lines| == |texts|
    requires forall i :: 0 <= i < |lines| ==> |lines[i]| <= 1048576 && decode(lines[i]) == Some(texts[i])
    ensures Decoded(lines, decode) == Some(texts)
    decreases |lines|
  {
    if lines != [] {
      var n := |lines| - 1;
      DecodedAre(lines[..n], texts[..n], decode);
      assert texts == texts[..n] + [texts[n]];
    }
  }

  /** And it refuses a line that is longer. */
  lemma LongIsRefused(line: Bytes, decode: Decoder)
    requires 10 !in line && |line| > 1048576
    ensures Meaning(line, decode).None?
  {
    SplitPlain([], line);
    assert [] + line == line;
  }
}
