/** The required fields of a sensor configuration: the tag stack over tokens, what it means
    for document trees, and the scanning loop. */
module XmlFields {
  import opened Wrappers
  import opened XmlText

  const REQUIRED: seq<string> := ["prodname", "cfgcpf", "cfgcpt", "scfgfu", "scfgtu"]
  const FIELDS: nat := 5
  const LONGEST: nat := 128
  const DEFAULT_NAME: string := "ATI Net F/T"

  function RequiredIndex(name: string): (r: Option<nat>)
    ensures r.Some? ==> r.value < FIELDS
  {
    if name == REQUIRED[0] then Some(0)
    else if name == REQUIRED[1] then Some(1)
    else if name == REQUIRED[2] then Some(2)
    else if name == REQUIRED[3] then Some(3)
    else if name == REQUIRED[4] then Some(4)
    else None
  }

  /** The text of each required field, whether its element has been seen, and the open elements. */
  datatype RawState = RawState(fields: seq<string>, seen: seq<bool>, elements: seq<string>)

  type State = st: RawState | |st.fields| == FIELDS && |st.seen| == FIELDS
    witness RawState(["", "", "", "", ""], [false, false, false, false, false], [])

  const INIT: State := RawState(["", "", "", "", ""], [false, false, false, false, false], [])

  /** The required field whose element is innermost, if any. */
  function Inside(st: State): (r: Option<nat>)
    ensures r.Some? ==> r.value < FIELDS
  {
    if st.elements == [] then None else RequiredIndex(st.elements[|st.elements| - 1])
  }

  function AddText(st: State, text: string): (r: State)
  {
    if Inside(st).None? then st
    else st.(fields := st.fields[Inside(st).value := st.fields[Inside(st).value] + text])
  }

  function EnterTag(st: State, name: string): (r: Option<State>)
  {
    var index := RequiredIndex(name);
    if Inside(st).Some? then None
    else if index.None? then Some(st)
    else if st.seen[index.value] then None
    else Some(st.(seen := st.seen[index.value := true]))
  }

  function Take(st: State, t: Token): (r: Option<State>)
  {
    match t
    case Char(c) => Some(AddText(st, [c]))
    case Close(name) =>
      if st.elements == [] || st.elements[|st.elements| - 1] != name then None
      else Some(st.(elements := st.elements[..|st.elements| - 1]))
    case Alone(name) => EnterTag(st, name)
    case Open(name) =>
      var r := EnterTag(st, name);
      if r.None? then None else Some(r.value.(elements := r.value.elements + [name]))
  }

  function Fold(ts: seq<Token>, st: State): (r: Option<State>)
    decreases |ts|
  {
    if ts == [] then Some(st)
    else
      var r := Take(st, ts[0]);
      if r.None? then None else Fold(ts[1..], r.value)
  }

  function Then(r: Option<State>, ts: seq<Token>): Option<State>
  {
    if r.None? then None else Fold(ts, r.value)
  }

  lemma {:induction false} FoldConcat(a: seq<Token>, b: seq<Token>, st: State)
    ensures Fold(a + b, st) == Then(Fold(a, st), b)
    decreases |a|
  {
    if a == [] {
      assert a + b == b;
    } else {
      assert (a + b)[1..] == a[1..] + b;
      var r := Take(st, a[0]);
      if r.Some? {
        FoldConcat(a[1..], b, r.value);
      }
    }
  }

  lemma AddTextTwice(st: State, a: string, b: string)
    ensures AddText(AddText(st, a), b) == AddText(st, a + b)
  {
    if Inside(st).Some? {
      assert st.fields[Inside(st).value] + a + b == st.fields[Inside(st).value] + (a + b);
    }
  }

  lemma AddNothing(st: State)
    ensures AddText(st, "") == st
  {
    if Inside(st).Some? {
      assert st.fields[Inside(st).value] + "" == st.fields[Inside(st).value];
    }
  }

  lemma {:induction false} FoldChars(text: string, st: State)
    ensures Fold(Chars(text), st) == Some(AddText(st, text))
    decreases |text|
  {
    if text == "" {
      AddNothing(st);
    } else {
      assert Chars(text)[1..] == Chars(text[1..]);
      FoldChars(text[1..], AddText(st, [text[0]]));
      AddTextTwice(st, [text[0]], text[1..]);
      assert [text[0]] + text[1..] == text;
    }
  }

  // The meaning of a document tree.

  predicate TextOnly(d: Doc) {
    match d
    case End => true
    case Empty(_, _, _, _) => false
    case Element(_, _, _, _, _, _) => false
    case _ => TextOnly(d.next)
  }

  function TextOf(d: Doc): string {
    match d
    case Text(text, next) => text + TextOf(next)
    case Cdata(text, next) => text + TextOf(next)
    case Comment(_, next) => TextOf(next)
    case Instruction(_, next) => TextOf(next)
    case _ => ""
  }

  /** Required elements hold text only. */
  predicate Clean(d: Doc) {
    match d
    case End => true
    case Element(name, _, _, children, _, next) =>
      (if RequiredIndex(name).Some? then TextOnly(children) else Clean(children)) && Clean(next)
    case _ => Clean(d.next)
  }

  datatype Leaf = Leaf(index: nat, text: string)

  function LeafOf(name: string, text: string): seq<Leaf> {
    if RequiredIndex(name).Some? then [Leaf(RequiredIndex(name).value, text)] else []
  }

  /** The required elements of a document in order, with their text. */
  function Leaves(d: Doc): seq<Leaf> {
    match d
    case End => []
    case Empty(name, _, _, next) => LeafOf(name, "") + Leaves(next)
    case Element(name, _, _, children, _, next) =>
      (if RequiredIndex(name).Some? then LeafOf(name, TextOf(children)) else Leaves(children)) + Leaves(next)
    case _ => Leaves(d.next)
  }

  function Put(st: State, leaf: Leaf): (r: Option<State>)
    ensures r.Some? ==> r.value.elements == st.elements
  {
    if leaf.index >= FIELDS || st.seen[leaf.index] then None
    else Some(RawState(st.fields[leaf.index := st.fields[leaf.index] + leaf.text], st.seen[leaf.index := true],
                    st.elements))
  }

  function PutAll(st: State, leaves: seq<Leaf>): (r: Option<State>)
    ensures r.Some? ==> r.value.elements == st.elements
    decreases |leaves|
  {
    if leaves == [] then Some(st)
    else
      var r := Put(st, leaves[0]);
      if r.None? then None else PutAll(r.value, leaves[1..])
  }

  lemma {:induction false} PutConcat(st: State, a: seq<Leaf>, b: seq<Leaf>)
    ensures PutAll(st, a + b) ==
            match PutAll(st, a) case None => None case Some(r) => PutAll(r, b)
    decreases |a|
  {
    if a == [] {
      assert a + b == b;
    } else {
      assert (a + b)[1..] == a[1..] + b;
      var r := Put(st, a[0]);
      if r.Some? {
        PutConcat(r.value, a[1..], b);
      }
    }
  }

  /** Inside a required element everything but text is refused. */
  lemma {:induction false} FoldText(d: Doc, st: State)
    requires Inside(st).Some?
    ensures TextOnly(d) ==> Fold(Tokens(d), st) == Some(AddText(st, TextOf(d)))
    ensures !TextOnly(d) ==> Fold(Tokens(d), st).None?
    decreases d
  {
    match d
    case End =>
      AddNothing(st);
    case Empty(name, _, _, next) =>
      assert Tokens(d)[0] == Alone(name);
    case Element(name, _, _, children, _, next) =>
      assert Tokens(d)[0] == Open(name);
    case Text(text, next) =>
      FoldTextThen(text, next, st);
      FoldText(next, AddText(st, text));
    case Cdata(text, next) =>
      FoldTextThen(text, next, st);
      FoldText(next, AddText(st, text));
    case Comment(_, next) =>
      FoldText(next, st);
    case Instruction(_, next) =>
      FoldText(next, st);
  }

  lemma FoldTextThen(text: string, next: Doc, st: State)
    ensures Fold(Chars(text) + Tokens(next), st) == Fold(Tokens(next), AddText(st, text))
    ensures AddText(AddText(st, text), TextOf(next)) == AddText(st, text + TextOf(next))
  {
    FoldConcat(Chars(text), Tokens(next), st);
    FoldChars(text, st);
    AddTextTwice(st, text, TextOf(next));
  }

  function Result(d: Doc, st: State): (r: Option<State>)
    ensures r.Some? ==> r.value.elements == st.elements
  {
    if Clean(d) then PutAll(st, Leaves(d)) else None
  }

  lemma FoldElement(name: string, children: Doc, next: Doc, st: State)
    ensures Fold([Open(name)] + Tokens(children) + [Close(name)] + Tokens(next), st) ==
            Then(Then(Then(Take(st, Open(name)), Tokens(children)), [Close(name)]), Tokens(next))
  {
    var a, b, c := Tokens(children), [Close(name)], Tokens(next);
    assert [Open(name)] + a + b + c == [Open(name)] + (a + (b + c));
    FoldConcat([Open(name)], a + (b + c), st);
    var r := Take(st, Open(name));
    if r.Some? {
      FoldConcat(a, b + c, r.value);
      var q := Fold(a, r.value);
      if q.Some? {
        FoldConcat(b, c, q.value);
      }
    }
  }

  lemma CloseOpened(st: State, name: string)
    ensures Fold([Close(name)], st.(elements := st.elements + [name])) == Some(st)
  {
    assert (st.elements + [name])[..|st.elements|] == st.elements;
  }

  /** Elements below the ones a document touches do not matter to its leaves. */
  lemma {:induction false} PutUnder(st: State, leaves: seq<Leaf>, name: string)
    ensures PutAll(st.(elements := st.elements + [name]), leaves) ==
            match PutAll(st, leaves)
            case None => None
            case Some(r) => Some(r.(elements := r.elements + [name]))
    decreases |leaves|
  {
    if leaves != [] {
      var r := Put(st, leaves[0]);
      if r.Some? {
        PutUnder(r.value, leaves[1..], name);
      }
    }
  }

  lemma FoldEmpty(name: string, st: State)
    requires Inside(st).None?
    ensures Take(st, Alone(name)) == PutAll(st, LeafOf(name, ""))
  {
    var index := RequiredIndex(name);
    if index.Some? {
      var text := st.fields[index.value];
      assert text + "" == text;
      assert st.fields[index.value := text] == st.fields;
    }
  }

  /** A required element, from its start tag to its end tag. */
  lemma FoldRequired(name: string, children: Doc, st: State)
    requires Inside(st).None? && RequiredIndex(name).Some?
    ensures Then(Then(Take(st, Open(name)), Tokens(children)), [Close(name)]) ==
            if TextOnly(children) then PutAll(st, LeafOf(name, TextOf(children))) else None
  {
    var index := RequiredIndex(name).value;
    if !st.seen[index] {
      var entered := st.(seen := st.seen[index := true]);
      var inner := entered.(elements := st.elements + [name]);
      FoldText(children, inner);
      CloseOpened(WithText(entered, index, TextOf(children)), name);
    }
  }

  function WithText(st: State, index: nat, text: string): (r: State)
    requires index < FIELDS
  {
    st.(fields := st.fields[index := st.fields[index] + text])
  }

  lemma FoldOther(name: string, children: Doc, st: State)
    requires Inside(st).None? && RequiredIndex(name).None?
    requires var inner := st.(elements := st.elements + [name]);
             Fold(Tokens(children), inner) == Result(children, inner)
    ensures Then(Then(Take(st, Open(name)), Tokens(children)), [Close(name)]) ==
            if Clean(children) then PutAll(st, Leaves(children)) else None
  {
    PutUnder(st, Leaves(children), name);
    var r := PutAll(st, Leaves(children));
    if r.Some? {
      CloseOpened(r.value, name);
    }
  }

  /** Outside required elements the token machine computes the leaves of the document. */
  lemma {:induction false} FoldDoc(d: Doc, st: State)
    requires Inside(st).None?
    ensures Fold(Tokens(d), st) == Result(d, st)
    decreases d, 1
  {
    match d
    case End =>
    case Text(text, next) =>
      FoldTextThen(text, next, st);
      FoldDoc(next, st);
    case Cdata(text, next) =>
      FoldTextThen(text, next, st);
      FoldDoc(next, st);
    case Comment(_, next) =>
      FoldDoc(next, st);
    case Instruction(_, next) =>
      FoldDoc(next, st);
    case Empty(name, _, _, next) =>
      FoldConcat([Alone(name)], Tokens(next), st);
      FoldEmpty(name, st);
      FoldNext(d, LeafOf(name, ""), true, next, st);
    case Element(name, _, _, children, _, next) =>
      FoldElement(name, children, next, st);
      if RequiredIndex(name).Some? {
        FoldRequired(name, children, st);
        FoldNext(d, LeafOf(name, TextOf(children)), TextOnly(children), next, st);
      } else {
        FoldDoc(children, st.(elements := st.elements + [name]));
        FoldOther(name, children, st);
        FoldNext(d, Leaves(children), Clean(children), next, st);
      }
  }

  /** The rest of a document after its first node added the given leaves. */
  lemma {:induction false} FoldNext(d: Doc, leaves: seq<Leaf>, clean: bool, next: Doc, st: State)
    requires Inside(st).None? && next < d
    requires Leaves(d) == leaves + Leaves(next) && (Clean(d) <==> clean && Clean(next))
    ensures Then(if clean then PutAll(st, leaves) else None, Tokens(next)) == Result(d, st)
    decreases d, 0
  {
    PutConcat(st, leaves, Leaves(next));
    var r := PutAll(st, leaves);
    if clean && r.Some? {
      FoldDoc(next, r.value);
    }
  }

  predicate Repeats(leaves: seq<Leaf>) {
    exists i, j :: 0 <= i < j < |leaves| && leaves[i].index == leaves[j].index
  }

  /** The text of the first leaf with an index. */
  function LeafText(leaves: seq<Leaf>, index: nat): Option<string> {
    if leaves == [] then None
    else if leaves[0].index == index then Some(leaves[0].text)
    else LeafText(leaves[1..], index)
  }

  function Found(st: State): seq<Option<string>>
  {
    seq(FIELDS, i requires 0 <= i < FIELDS => if st.seen[i] then Some(st.fields[i]) else None)
  }

  function LeafTexts(leaves: seq<Leaf>): seq<Option<string>> {
    seq(FIELDS, i requires 0 <= i < FIELDS => LeafText(leaves, i))
  }

  predicate Indexed(leaves: seq<Leaf>) { forall leaf <- leaves :: leaf.index < FIELDS }

  lemma {:induction false} LeavesIndexed(d: Doc)
    ensures Indexed(Leaves(d))
    decreases d
  {
    match d
    case End =>
    case Element(name, _, _, children, _, next) =>
      LeavesIndexed(children);
      LeavesIndexed(next);
    case _ => LeavesIndexed(d.next);
  }

  predicate Unseen(st: State, leaves: seq<Leaf>)
  {
    forall leaf <- leaves :: leaf.index < FIELDS ==> !st.seen[leaf.index]
  }

  lemma RepeatsHead(leaves: seq<Leaf>)
    requires leaves != []
    ensures Repeats(leaves) <==> Repeats(leaves[1..]) || exists leaf <- leaves[1..] :: leaf.index == leaves[0].index
  {
    var t := leaves[1..];
    if Repeats(leaves) {
      var i, j :| 0 <= i < j < |leaves| && leaves[i].index == leaves[j].index;
      if i == 0 {
        assert t[j - 1] in t;
      } else {
        assert t[i - 1].index == t[j - 1].index;
      }
    }
    if Repeats(t) {
      var i, j :| 0 <= i < j < |t| && t[i].index == t[j].index;
      assert leaves[i + 1].index == leaves[j + 1].index;
    }
    if leaf :| leaf in t && leaf.index == leaves[0].index {
      var k :| 0 <= k < |t| && t[k] == leaf;
      assert leaves[0].index == leaves[k + 1].index;
    }
  }

  /** What the leaves have done to one field. */
  predicate FieldMeans(st: State, r: State, text: Option<string>, i: nat)
    requires i < FIELDS
  {
    if text.None? then r.seen[i] == st.seen[i] && r.fields[i] == st.fields[i]
    else r.seen[i] && r.fields[i] == st.fields[i] + text.value
  }

  /** Putting leaves succeeds when no index repeats, and fills exactly the fields of the leaves. */
  lemma {:induction false} PutAllMeans(st: State, leaves: seq<Leaf>)
    requires Indexed(leaves)
    ensures PutAll(st, leaves).Some? <==> !Repeats(leaves) && Unseen(st, leaves)
    ensures PutAll(st, leaves).Some? ==>
              forall i :: 0 <= i < FIELDS ==> FieldMeans(st, PutAll(st, leaves).value, LeafText(leaves, i), i)
    decreases |leaves|
  {
    if leaves != [] {
      var first, t := leaves[0], leaves[1..];
      assert leaves == [first] + t;
      assert first in leaves;
      RepeatsHead(leaves);
      var r := Put(st, first);
      if r.Some? {
        PutAllMeans(r.value, t);
        LeafAbsent(t, first.index);
      }
    }
  }

  lemma {:induction false} LeafAbsent(leaves: seq<Leaf>, index: nat)
    ensures LeafText(leaves, index).None? <==> forall leaf <- leaves :: leaf.index != index
    decreases |leaves|
  {
    if leaves != [] {
      assert leaves == [leaves[0]] + leaves[1..];
      LeafAbsent(leaves[1..], index);
    }
  }

  // The values of the fields.

  function Field(index: nat, text: Option<string>): Option<string> {
    match text
    case None => if index == 0 then Some(DEFAULT_NAME) else None
    case Some(t) => if Trim(t) == "" || |Trim(t)| > LONGEST then None else Some(Trim(t))
  }

  function Collected(texts: seq<Option<string>>): Option<seq<string>> {
    if texts == [] then Some([])
    else
      var last := |texts| - 1;
      var before, value := Collected(texts[..last]), Field(last, texts[last]);
      if before.None? || value.None? then None else Some(before.value + [value.value])
  }

  function Finish(st: State): Option<seq<string>>
  {
    if st.elements != [] then None else Collected(Found(st))
  }

  function Parsed(ts: Option<seq<Token>>, st: State): Option<State>
  {
    if ts.None? then None else Fold(ts.value, st)
  }

  /** What the extractor returns for any text; None stands for a refused document. */
  function Extracted(xml: string): Option<seq<string>> {
    var r := Parsed(Lex(xml), INIT);
    if r.None? then None else Finish(r.value)
  }

  /** What a document says: the trimmed text of each required leaf. */
  function Meaning(d: Doc): Option<seq<string>> {
    if !Clean(d) || Repeats(Leaves(d)) then None else Collected(LeafTexts(Leaves(d)))
  }

  lemma FoundIsLeaves(leaves: seq<Leaf>)
    requires Indexed(leaves) && PutAll(INIT, leaves).Some?
    ensures Found(PutAll(INIT, leaves).value) == LeafTexts(leaves)
  {
    PutAllMeans(INIT, leaves);
    forall i | 0 <= i < FIELDS
      ensures Found(PutAll(INIT, leaves).value)[i] == LeafTexts(leaves)[i]
    {
      assert INIT.fields[i] == "" && !INIT.seen[i];
      assert LeafText(leaves, i).Some? ==> "" + LeafText(leaves, i).value == LeafText(leaves, i).value;
    }
  }

  lemma TokensMean(d: Doc)
    ensures match Fold(Tokens(d), INIT)
            case None => Meaning(d) == None
            case Some(r) => Finish(r) == Meaning(d)
  {
    FoldDoc(d, INIT);
    LeavesIndexed(d);
    PutAllMeans(INIT, Leaves(d));
    if PutAll(INIT, Leaves(d)).Some? {
      FoundIsLeaves(Leaves(d));
    }
  }

  /** The extractor reads from a printed document exactly what the document says, and refuses
      it exactly when a required element is nested, repeated, missing, empty or too long. */
  lemma PrintedDocument(d: Doc)
    requires Printable(d)
    ensures Extracted(Print(d)) == Meaning(d)
  {
    LexPrint(d, "");
    assert Print(d) + "" == Print(d);
    assert Tokens(d) + [] == Tokens(d);
    TokensMean(d);
  }

  // Every accepted text is balanced.

  /** The tokens that close the open elements, innermost first, each followed by siblings. */
  function After(more: seq<Doc>, stack: seq<string>): seq<Token>
    requires |more| == |stack|
    decreases |stack|
  {
    if stack == [] then []
    else [Close(stack[|stack| - 1])] + Tokens(more[0]) + After(more[1..], stack[..|stack| - 1])
  }

  lemma AfterOpened(d: Doc, more: seq<Doc>, stack: seq<string>, name: string)
    requires |more| == |stack|
    ensures After([d] + more, stack + [name]) == [Close(name)] + Tokens(d) + After(more, stack)
  {
    assert (stack + [name])[..|stack|] == stack && ([d] + more)[1..] == more;
  }

  /** The stack after a token. */
  function Stack(stack: seq<string>, t: Token): seq<string> {
    match t
    case Open(name) => stack + [name]
    case Close(name) => if stack == [] then [] else stack[..|stack| - 1]
    case _ => stack
  }

  lemma RebuildOpen(name: string, stack: seq<string>, d: Doc, more: seq<Doc>) returns (e: Doc, rest: seq<Doc>)
    requires |more| == |stack| + 1
    ensures |rest| == |stack|
    ensures Tokens(e) + After(rest, stack) == [Open(name)] + (Tokens(d) + After(more, stack + [name]))
  {
    rest := more[1..];
    e := Element(name, [], "", d, "", more[0]);
    assert more == [more[0]] + rest;
    AfterOpened(more[0], rest, stack, name);
    var a, b, c := Tokens(d), Tokens(more[0]), After(rest, stack);
    assert [Open(name)] + (a + ([Close(name)] + b + c)) == ([Open(name)] + a + [Close(name)] + b) + c;
  }

  lemma RebuildStep(t: Token, stack: seq<string>, d: Doc, more: seq<Doc>) returns (e: Doc, rest: seq<Doc>)
    requires t.Close? ==> stack != [] && stack[|stack| - 1] == t.name
    requires |more| == |Stack(stack, t)|
    ensures |rest| == |stack|
    ensures Tokens(e) + After(rest, stack) == [t] + (Tokens(d) + After(more, Stack(stack, t)))
  {
    var a, b := Tokens(d), After(more, Stack(stack, t));
    Associate(t, a, b);
    match t
    case Char(c) =>
      e, rest := Text([c], d), more;
      assert Chars([c]) == [t];
    case Alone(name) =>
      e, rest := Empty(name, [], "", d), more;
    case Close(name) =>
      e, rest := End, [d] + more;
      assert stack == Stack(stack, t) + [name];
      AfterOpened(d, more, Stack(stack, t), name);
      assert [] + ([t] + a + b) == [t] + a + b;
    case Open(name) =>
      e, rest := RebuildOpen(name, stack, d, more);
  }

  lemma Associate(t: Token, a: seq<Token>, b: seq<Token>)
    ensures [t] + a + b == [t] + (a + b)
  {
  }

  /** Tokens that the machine accepts with some elements open, as documents. */
  lemma {:induction false} Rebuild(ts: seq<Token>, st: State) returns (d: Doc, more: seq<Doc>)
    requires Fold(ts, st).Some? && Fold(ts, st).value.elements == []
    ensures |more| == |st.elements| && ts == Tokens(d) + After(more, st.elements)
    decreases |ts|
  {
    if ts == [] {
      d, more := End, [];
    } else {
      var after := Take(st, ts[0]).value;
      assert after.elements == Stack(st.elements, ts[0]);
      d, more := Rebuild(ts[1..], after);
      d, more := RebuildStep(ts[0], st.elements, d, more);
      assert ts == [ts[0]] + ts[1..];
    }
  }

  /** Every accepted text is balanced: its tokens are those of a document tree, and what is
      returned is what that document says. */
  lemma AcceptedIsBalanced(xml: string) returns (d: Doc)
    requires Extracted(xml).Some?
    ensures Lex(xml) == Some(Tokens(d)) && Meaning(d) == Extracted(xml)
  {
    var more;
    d, more := Rebuild(Lex(xml).value, INIT);
    assert Tokens(d) + [] == Tokens(d);
    TokensMean(d);
  }

  // What is left open is refused.

  /** A comment, a CDATA section or an instruction without its end, a declaration, and a tag
      without its end. */
  predicate Unfinished(s: string) {
    || ("<!--" <= s && Find(s[4..], "-->").None?)
    || ("<![CDATA[" <= s && Find(s[9..], "]]>").None?)
    || ("<?" <= s && Find(s[2..], "?>").None?)
    || ("<!" <= s && !("<!--" <= s) && !("<![CDATA[" <= s))
    || ("<" <= s && !("<!" <= s) && !("<?" <= s) && TagEnd(s[1..], None).None?)
  }

  lemma UnfinishedHasNoMarkup(s: string)
    requires Unfinished(s)
    ensures s != "" && s[0] == '<' && Markup(s).None?
  {
    assert s[0] == '<';
    if "<![CDATA[" <= s {
      assert s[2] == '[';
    }
    if "<?" <= s {
      assert s[1] == '?';
    }
    if "<!--" <= s {
      assert s[1] == '!' && s[2] == '-';
    }
  }

  /** Whatever document comes before it. */
  lemma UnfinishedIsRefused(d: Doc, rest: string)
    requires Printable(d) && Unfinished(rest)
    ensures Extracted(Print(d) + rest).None?
  {
    LexPrint(d, rest);
    UnfinishedHasNoMarkup(rest);
  }
}
