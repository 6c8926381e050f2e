/** What the extractor returns, field by field and by the names of the elements: the display
    name, the counts per force and per torque unit, and the force and the torque unit. */
module XmlNamed {
  import opened Wrappers
  import opened XmlText
  import opened XmlFields

  predicate Wanted(name: string) { name in ["prodname", "cfgcpf", "cfgcpt", "scfgfu", "scfgtu"] }

  /** The texts of the elements with a name, in order. Nothing is looked for inside a wanted
      element. */
  function TextsNamed(d: Doc, name: string): seq<string> {
    match d
    case End => []
    case Empty(n, _, _, next) => (if n == name then [""] else []) + TextsNamed(next, name)
    case Element(n, _, _, children, _, next) =>
      (if n == name then [TextOf(children)] else if Wanted(n) then [] else TextsNamed(children, name)) +
      TextsNamed(next, name)
    case _ => TextsNamed(d.next, name)
  }

  /** Wanted elements hold text only. */
  predicate Flat(d: Doc) {
    match d
    case End => true
    case Element(n, _, _, children, _, next) =>
      (if Wanted(n) then TextOnly(children) else Flat(children)) && Flat(next)
    case _ => Flat(d.next)
  }

  /** The value of a field that must stand exactly once, trimmed, and with 1 to 128 characters. */
  function Once(d: Doc, name: string): Option<string> {
    var texts := TextsNamed(d, name);
    if |texts| != 1 || Trim(texts[0]) == "" || |Trim(texts[0])| > 128 then None else Some(Trim(texts[0]))
  }

  /** The display name may be missing. */
  function NameOrDefault(d: Doc): Option<string> {
    if TextsNamed(d, "prodname") == [] then Some("ATI Net F/T") else Once(d, "prodname")
  }

  /** What a document says. */
  function Named(d: Doc): Option<seq<string>> {
    var name, perForce, perTorque := NameOrDefault(d), Once(d, "cfgcpf"), Once(d, "cfgcpt");
    var force, torque := Once(d, "scfgfu"), Once(d, "scfgtu");
    if !Flat(d) || name.None? || perForce.None? || perTorque.None? || force.None? || torque.None? then None
    else Some([name.value, perForce.value, perTorque.value, force.value, torque.value])
  }

  // The leaves by their names.

  function NameAt(i: nat): string
    requires i < 5
  {
    match i
    case 0 => "prodname"
    case 1 => "cfgcpf"
    case 2 => "cfgcpt"
    case 3 => "scfgfu"
    case 4 => "scfgtu"
  }

  lemma IndexOfName(name: string)
    ensures Wanted(name) <==> RequiredIndex(name).Some?
    ensures forall i: nat :: i < 5 ==> (RequiredIndex(name) == Some(i) <==> name == NameAt(i))
  {
    assert "prodname" != "cfgcpf" && "cfgcpf" != "cfgcpt" by {
      assert "cfgcpf"[5] != "cfgcpt"[5];
    }
    assert "scfgfu" != "scfgtu" by {
      assert "scfgfu"[4] != "scfgtu"[4];
    }
    assert "cfgcpf"[0] != "scfgfu"[0] && "prodname"[0] != "cfgcpf"[0] && "prodname"[0] != "scfgfu"[0];
  }

  function TextsAt(leaves: seq<Leaf>, i: nat): seq<string> {
    if leaves == [] then [] else (if leaves[0].index == i then [leaves[0].text] else []) + TextsAt(leaves[1..], i)
  }

  lemma {:induction false} TextsAtConcat(a: seq<Leaf>, b: seq<Leaf>, i: nat)
    ensures TextsAt(a + b, i) == TextsAt(a, i) + TextsAt(b, i)
    decreases |a|
  {
    if a == [] {
      assert a + b == b;
    } else {
      assert (a + b)[1..] == a[1..] + b;
      TextsAtConcat(a[1..], b, i);
    }
  }

  lemma TextsAtLeaf(name: string, text: string, i: nat)
    requires i < 5
    ensures TextsAt(LeafOf(name, text), i) == if name == NameAt(i) then [text] else []
  {
    IndexOfName(name);
  }

  lemma {:induction false} LeavesNamed(d: Doc, i: nat)
    requires i < 5
    ensures TextsAt(Leaves(d), i) == TextsNamed(d, NameAt(i))
    decreases d
  {
    match d
    case End =>
    case Empty(n, _, _, next) =>
      LeavesNamed(next, i);
      TextsAtLeaf(n, "", i);
      TextsAtConcat(LeafOf(n, ""), Leaves(next), i);
    case Element(n, _, _, children, _, next) =>
      LeavesNamed(children, i);
      LeavesNamed(next, i);
      IndexOfName(n);
      if Wanted(n) {
        TextsAtLeaf(n, TextOf(children), i);
        TextsAtConcat(LeafOf(n, TextOf(children)), Leaves(next), i);
      } else {
        TextsAtConcat(Leaves(children), Leaves(next), i);
      }
    case _ => LeavesNamed(d.next, i);
  }

  lemma {:induction false} FlatIsClean(d: Doc)
    ensures Flat(d) <==> Clean(d)
    decreases d
  {
    match d
    case End =>
    case Element(n, _, _, children, _, next) =>
      IndexOfName(n);
      FlatIsClean(children);
      FlatIsClean(next);
    case _ => FlatIsClean(d.next);
  }

  lemma {:induction false} FirstText(leaves: seq<Leaf>, i: nat)
    ensures LeafText(leaves, i) == if TextsAt(leaves, i) == [] then None else Some(TextsAt(leaves, i)[0])
    ensures TextsAt(leaves, i) == [] <==> forall leaf <- leaves :: leaf.index != i
    decreases |leaves|
  {
    if leaves != [] {
      FirstText(leaves[1..], i);
      assert leaves == [leaves[0]] + leaves[1..];
    }
  }

  lemma TextsAtHead(leaves: seq<Leaf>, i: nat)
    requires leaves != []
    ensures |TextsAt(leaves, i)| == (if leaves[0].index == i then 1 else 0) + |TextsAt(leaves[1..], i)|
  {
  }

  lemma TwiceRepeats(leaves: seq<Leaf>, i: nat)
    requires |TextsAt(leaves, i)| > 1
    ensures Repeats(leaves)
    decreases |leaves|
  {
    var k := leaves[0].index;
    TextsAtHead(leaves, i);
    RepeatsHead(leaves);
    if i == k {
      FirstText(leaves[1..], i);
    } else {
      TwiceRepeats(leaves[1..], i);
    }
  }

  lemma {:induction false} RepeatsTwice(leaves: seq<Leaf>) returns (i: nat)
    requires Indexed(leaves) && Repeats(leaves)
    ensures i < 5 && |TextsAt(leaves, i)| > 1
    decreases |leaves|
  {
    var t := leaves[1..];
    assert leaves == [leaves[0]] + t && leaves[0] in leaves;
    RepeatsHead(leaves);
    if Repeats(t) {
      i := RepeatsTwice(t);
    } else {
      i := leaves[0].index;
      FirstText(t, i);
    }
    TextsAtHead(leaves, i);
  }

  function WithField(before: Option<seq<string>>, value: Option<string>): Option<seq<string>> {
    if before.None? || value.None? then None else Some(before.value + [value.value])
  }

  lemma CollectedLast(texts: seq<Option<string>>, n: nat, before: Option<seq<string>>, value: Option<string>)
    requires n < |texts| && Collected(texts[..n]) == before && Field(n, texts[n]) == value
    ensures Collected(texts[..n + 1]) == WithField(before, value)
  {
    var more := texts[..n + 1];
    assert more[..n] == texts[..n] && more[n] == texts[n] && |more| - 1 == n;
  }

  lemma FiveFields(a: Option<string>, b: Option<string>, c: Option<string>, d: Option<string>, e: Option<string>)
    ensures WithField(WithField(WithField(WithField(WithField(Some([]), a), b), c), d), e) ==
            if a.None? || b.None? || c.None? || d.None? || e.None? then None
            else Some([a.value, b.value, c.value, d.value, e.value])
  {
    if a.Some? && b.Some? && c.Some? && d.Some? && e.Some? {
      var none: seq<string> := [];
      assert none + [a.value] + [b.value] + [c.value] + [d.value] + [e.value] ==
             [a.value, b.value, c.value, d.value, e.value];
    }
  }

  lemma CollectedFive(texts: seq<Option<string>>, a: Option<string>, b: Option<string>, c: Option<string>,
                      d: Option<string>, e: Option<string>)
    requires |texts| == 5
    requires Field(0, texts[0]) == a && Field(1, texts[1]) == b && Field(2, texts[2]) == c
    requires Field(3, texts[3]) == d && Field(4, texts[4]) == e
    ensures Collected(texts) ==
            if a.None? || b.None? || c.None? || d.None? || e.None? then None
            else Some([a.value, b.value, c.value, d.value, e.value])
  {
    var none: Option<seq<string>> := Some([]);
    assert texts[..0] == [] && texts[..5] == texts;
    CollectedLast(texts, 0, none, a);
    CollectedLast(texts, 1, WithField(none, a), b);
    CollectedLast(texts, 2, WithField(WithField(none, a), b), c);
    CollectedLast(texts, 3, WithField(WithField(WithField(none, a), b), c), d);
    CollectedLast(texts, 4, WithField(WithField(WithField(WithField(none, a), b), c), d), e);
    FiveFields(a, b, c, d, e);
  }

  lemma FieldOnce(d: Doc, i: nat)
    requires i < 5 && !Repeats(Leaves(d))
    ensures Field(i, LeafText(Leaves(d), i)) == if i == 0 then NameOrDefault(d) else Once(d, NameAt(i))
  {
    var texts := TextsNamed(d, NameAt(i));
    LeavesNamed(d, i);
    AtMostOnce(Leaves(d), i);
    FirstText(Leaves(d), i);
    if texts == [] {
      assert LeafText(Leaves(d), i) == None;
    } else {
      assert |texts| == 1 && LeafText(Leaves(d), i) == Some(texts[0]);
    }
    assert NameAt(0) == "prodname";
  }

  lemma NamedIsMeaning(d: Doc)
    ensures Named(d) == Meaning(d)
  {
    FlatIsClean(d);
    if Repeats(Leaves(d)) {
      RepeatsRefuse(d);
    } else {
      FieldsNamed(d);
    }
  }

  lemma RepeatsRefuse(d: Doc)
    requires Repeats(Leaves(d))
    ensures Named(d).None?
  {
    LeavesIndexed(d);
    var i := RepeatsTwice(Leaves(d));
    LeavesNamed(d, i);
    OnceRefuses(d, i);
  }

  lemma OnceRefuses(d: Doc, i: nat)
    requires i < 5 && |TextsNamed(d, NameAt(i))| > 1
    ensures Named(d).None?
  {
    assert Once(d, NameAt(i)).None?;
    match i
    case 0 => assert NameOrDefault(d).None?;
    case _ =>
  }

  lemma AtMostOnce(leaves: seq<Leaf>, i: nat)
    requires !Repeats(leaves)
    ensures |TextsAt(leaves, i)| <= 1
  {
    if |TextsAt(leaves, i)| > 1 {
      TwiceRepeats(leaves, i);
    }
  }

  lemma FieldsNamed(d: Doc)
    requires !Repeats(Leaves(d))
    ensures Collected(LeafTexts(Leaves(d))) ==
            var name, perForce, perTorque := NameOrDefault(d), Once(d, "cfgcpf"), Once(d, "cfgcpt");
            var force, torque := Once(d, "scfgfu"), Once(d, "scfgtu");
            if name.None? || perForce.None? || perTorque.None? || force.None? || torque.None? then None
            else Some([name.value, perForce.value, perTorque.value, force.value, torque.value])
  {
    FieldOnce(d, 0);
    FieldOnce(d, 1);
    FieldOnce(d, 2);
    FieldOnce(d, 3);
    FieldOnce(d, 4);
    CollectedFive(LeafTexts(Leaves(d)), NameOrDefault(d), Once(d, "cfgcpf"), Once(d, "cfgcpt"), Once(d, "scfgfu"),
                  Once(d, "scfgtu"));
  }

  /** From every printed document the extractor returns, in this order, the display name or its
      default, the counts per force unit and per torque unit, and the force and torque units:
      each the trimmed text of the one element of its name; and it refuses the document exactly
      when one of them is missing, repeated, empty, too long, or holds an element. */
  lemma PrintedFields(d: Doc)
    requires Printable(d)
    ensures Extracted(Print(d)) == Named(d)
  {
    PrintedDocument(d);
    NamedIsMeaning(d);
  }
}
