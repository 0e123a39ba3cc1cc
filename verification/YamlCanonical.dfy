/**
  The documents that the reader is meant for, and how they are written: two-space indentation, maps
  and block arrays of maps nested in each other to any depth, and array elements that start with a
  string field. Which of them are read back is the subject of YamlFits and YamlDocument.
*/
module YamlCanonical {
  import opened Prelude
  import opened Text
  import opened Yaml

  datatype Scalar =
    | Bool(b: bool)
    | Int(n: nat)
    | Fraction(whole: string, part: string)
    | Plain(s: string)
    | Inline(elems: seq<string>)

  datatype Node = Leaf(scalar: Scalar) | Block(entries: Entries) | Array(elements: Elements)

  /** The fields of a map, in the order they are written. */
  datatype Entries = End | Entry(key: string, node: Node, rest: Entries)

  /** The elements of a block array: each a string field on the '-' line, then any further fields. */
  datatype Elements = Stop | Item(key: string, text: string, more: Entries, rest: Elements)

  // ----- Printing -----

  function Spaces(n: nat): string {
    if n == 0 then "" else " " + Spaces(n - 1)
  }

  function Join(elems: seq<string>): string {
    if elems == [] then "" else if |elems| == 1 then elems[0] else elems[0] + ", " + Join(elems[1..])
  }

  function Show(s: Scalar): string {
    match s
    case Bool(b) => if b then "true" else "false"
    case Int(n) => ToDecimal(n)
    case Fraction(whole, part) => whole + "." + part
    case Plain(t) => t
    case Inline(elems) => "[" + Join(elems) + "]"
  }

  /** "key:" or "key: text" */
  function Body(key: string, text: string): string {
    key + ":" + if text == "" then "" else " " + text
  }

  function Dashed(body: string): string {
    "- " + body
  }

  /** What stands on the line of the key. */
  function Written(node: Node): string {
    if node.Leaf? then Show(node.scalar) else ""
  }

  function FieldText(key: string, node: Node, indent: nat): string {
    Spaces(indent) + Body(key, Written(node))
  }

  function ItemText(key: string, text: string, indent: nat): string {
    Spaces(indent + 2) + Dashed(Body(key, text))
  }

  /** The lines below the line of the key. */
  function NodeLines(node: Node, indent: nat): seq<string>
    decreases node, 1
  {
    match node
    case Leaf(_) => []
    case Block(entries) => Lines(entries, indent + 2)
    case Array(elements) => ElementLines(elements, indent)
  }

  function EntryLines(key: string, node: Node, indent: nat): seq<string>
    decreases node, 2
  {
    [FieldText(key, node, indent)] + NodeLines(node, indent)
  }

  function Lines(entries: Entries, indent: nat): seq<string>
    decreases entries, 0
  {
    match entries
    case End => []
    case Entry(key, node, rest) => EntryLines(key, node, indent) + Lines(rest, indent)
  }

  function ItemLines(key: string, text: string, more: Entries, indent: nat): seq<string>
    decreases more, 1
  {
    [ItemText(key, text, indent)] + Lines(more, indent + 4)
  }

  /** The elements of an array whose key is written at `indent`. */
  function ElementLines(elements: Elements, indent: nat): seq<string>
    decreases elements, 0
  {
    match elements
    case Stop => []
    case Item(key, text, more, rest) => ItemLines(key, text, more, indent) + ElementLines(rest, indent)
  }

  // ----- The tree a document stands for -----

  function ScalarValue(s: Scalar): Value {
    match s
    case Bool(b) => Flag(b)
    case Int(n) => Number(n)
    case Fraction(whole, part) => Real(whole + "." + part)
    case Plain(t) => Str(t)
    case Inline(elems) => List(elems)
  }

  function NodeValue(node: Node): Value
    decreases node, 1
  {
    match node
    case Leaf(s) => ScalarValue(s)
    case Block(entries) => Map(Fields(map[], entries))
    case Array(elements) => Items(ElementObjs([], elements))
  }

  /** `obj` with the given fields added. */
  function Fields(obj: Obj, entries: Entries): Obj
    decreases entries, 0
  {
    match entries
    case End => obj
    case Entry(key, node, rest) => Fields(obj[key := NodeValue(node)], rest)
  }

  function ItemObj(key: string, text: string, more: Entries): Obj
    decreases more, 1
  {
    Fields(map[key := Str(text)], more)
  }

  /** `objs` with the given elements appended. */
  function ElementObjs(objs: seq<Obj>, elements: Elements): seq<Obj>
    decreases elements, 0
  {
    match elements
    case Stop => objs
    case Item(key, text, more, rest) => ElementObjs(objs + [ItemObj(key, text, more)], rest)
  }

  // ----- Which documents are canonical -----

  predicate Clean(s: string) {
    CleanLeft(s, BLANKS) && CleanRight(s, BLANKS) && '\n' !in s
  }

  /** A key has no colon, no blanks at its ends, and does not look like a comment or an item. */
  predicate GoodKey(key: string) {
    Clean(key) && ':' !in key && (key != "" ==> key[0] != '#' && key[0] != '-')
  }

  /** A string that cannot be taken for another kind of scalar. */
  predicate GoodText(s: string) {
    Clean(s) && s != "" && s != "true" && s != "false" && !AllIn(s, DIGITS + ".") && !IsBracketed(s)
  }

  /** Elements of an inline array: non-empty, without commas. */
  predicate GoodElems(elems: seq<string>) {
    forall i :: 0 <= i < |elems| ==> Clean(elems[i]) && elems[i] != "" && ',' !in elems[i]
  }

  predicate GoodScalar(s: Scalar) {
    match s
    case Bool(_) => true
    case Int(n) => n <= MAX_INT
    case Fraction(whole, part) => AllIn(whole, DIGITS) && AllIn(part, DIGITS) && (whole != "" || part != "")
    case Plain(t) => GoodText(t)
    case Inline(elems) => GoodElems(elems)
  }

  /** A block array has an element: a key with nothing below it stands for an empty map. */
  predicate GoodNode(node: Node)
    decreases node, 1
  {
    match node
    case Leaf(s) => GoodScalar(s)
    case Block(entries) => GoodEntries({}, entries)
    case Array(elements) => elements.Item? && GoodElements(elements)
  }

  /** Good keys, none of them in `used` or repeated, with good values. */
  predicate GoodEntries(used: set<string>, entries: Entries)
    decreases entries, 0
  {
    match entries
    case End => true
    case Entry(key, node, rest) =>
      key !in used && GoodKey(key) && GoodNode(node) && GoodEntries(used + {key}, rest)
  }

  predicate GoodElements(elements: Elements)
    decreases elements, 0
  {
    match elements
    case Stop => true
    case Item(key, text, more, rest) =>
      GoodKey(key) && Clean(text) && text != "" && GoodEntries({key}, more) && GoodElements(rest)
  }

  // ----- Reading back one line -----

  lemma {:induction false} SpacesAre(n: nat)
    ensures |Spaces(n)| == n && AllIn(Spaces(n), " ")
  {
    if n > 0 { SpacesAre(n - 1); }
  }

  lemma TrimPadded(pad: string, s: string)
    requires AllIn(pad, BLANKS) && Clean(s)
    ensures Trim(pad + s) == s
  {
    StripLeftPadding(pad, s, BLANKS);
    StripRightPadding(s, "", BLANKS);
    assert s + "" == s;
  }

  lemma {:induction false} IndentOf(n: nat, s: string)
    requires s != "" && s[0] != ' '
    ensures Indent(Spaces(n) + s) == n
  {
    if n == 0 {
      assert Spaces(0) + s == s;
    } else {
      assert (Spaces(n) + s)[1..] == Spaces(n - 1) + s;
      IndentOf(n - 1, s);
    }
  }

  /** A printed body is clean, starts like a field, and splits at its first colon. */
  lemma BodyReads(key: string, text: string)
    requires GoodKey(key) && Clean(text)
    ensures var body := Body(key, text);
            Clean(body) && body != "" && body[0] != ' ' && !Skipped(body) && body[0] != '-' &&
            IndexOf(body, ':') == |key| && Key(body) == key && After(body) == text
  {
    BodySplits(key, text);
    BodyIsClean(key, text);
  }

  lemma BodySplits(key: string, text: string)
    requires GoodKey(key) && Clean(text)
    ensures var body := Body(key, text);
            IndexOf(body, ':') == |key| && Key(body) == key && After(body) == text
  {
    var body, tail := Body(key, text), if text == "" then "" else " " + text;
    assert body == key + [':'] + tail;
    IndexAfter(key, ':', tail);
    assert body[..|key|] == key && body[|key| + 1..] == tail;
    assert "" + key == key && "" + "" == "";
    TrimPadded("", key);
    if text == "" { TrimPadded("", ""); } else { TrimPadded(" ", text); }
  }

  lemma BodyIsClean(key: string, text: string)
    requires GoodKey(key) && Clean(text)
    ensures var body := Body(key, text);
            Clean(body) && body != "" && body[0] != ' ' && !Skipped(body) && body[0] != '-'
  {
    var body := Body(key, text);
    assert body[0] == if key == "" then ':' else key[0];
    assert body[|body| - 1] == if text == "" then ':' else text[|text| - 1];
  }

  /** A line of a field. */
  lemma {:induction false} FieldLineReads(indent: nat, key: string, text: string)
    requires GoodKey(key) && Clean(text)
    ensures var line := Spaces(indent) + Body(key, text);
            Trim(line) == Body(key, text) && Indent(line) == indent
  {
    BodyReads(key, text);
    SpacesAre(indent);
    TrimPadded(Spaces(indent), Body(key, text));
    IndentOf(indent, Body(key, text));
  }

  lemma DashedReads(inner: string)
    requires Clean(inner) && inner != ""
    ensures var body := Dashed(inner);
            Clean(body) && body != "" && body[0] == '-' && Trim(body[1..]) == inner
  {
    var body := Dashed(inner);
    assert body[|body| - 1] == inner[|inner| - 1];
    assert body[1..] == " " + inner;
    TrimPadded(" ", inner);
  }

  /** The '-' line of an element. */
  lemma ItemLineReads(indent: nat, key: string, text: string)
    requires GoodKey(key) && Clean(text)
    ensures var body := Dashed(Body(key, text)); var line := Spaces(indent) + body;
            Trim(line) == body && Indent(line) == indent && !Skipped(body) && body[0] == '-' &&
            Trim(body[1..]) == Body(key, text)
  {
    BodyReads(key, text);
    DashedReads(Body(key, text));
    SpacesAre(indent);
    TrimPadded(Spaces(indent), Dashed(Body(key, text)));
    IndentOf(indent, Dashed(Body(key, text)));
  }

  // ----- Reading back scalars -----

  lemma {:induction false} CleanDigits(n: nat)
    ensures Clean(ToDecimal(n)) && !IsBracketed(ToDecimal(n)) && ToDecimal(n) != "true" && ToDecimal(n) != "false"
  {
    var s := ToDecimal(n);
    assert forall i :: 0 <= i < |s| ==> '0' <= s[i] <= '9';
    assert '0' <= s[0] <= '9' && "true"[0] == 't' && "false"[0] == 'f';
  }

  lemma FractionReads(whole: string, part: string)
    requires AllIn(whole, DIGITS) && AllIn(part, DIGITS) && (whole != "" || part != "")
    ensures var text := whole + "." + part;
            text != "" && Clean(text) && !IsBracketed(text) && ReadScalar(text) == Ok(Real(text))
  {
    var text := whole + "." + part;
    assert forall i :: 0 <= i < |text| ==> text[i] == '.' || '0' <= text[i] <= '9';
    assert text[|whole|] == '.' && text[0] == (if whole == "" then '.' else whole[0]);
    assert whole == "" ==> text[1] == part[0];
    assert "true"[0] == 't' && "false"[0] == 'f';
    assert AllIn(text, DIGITS + ".");
  }

  lemma {:induction false} LastElement(pad: string, elem: string)
    requires Clean(elem) && elem != "" && ',' !in elem && (pad == "" || pad == " ")
    ensures ListElements(pad + elem) == [elem]
  {
    TrimPadded(pad, elem);
    NoIndex(pad + elem, ',');
    assert NextLine(pad + elem, ',') == Some((pad + elem, []));
    assert ListElements([]) == [];
  }

  lemma {:induction false} FirstElement(pad: string, elem: string, rest: string)
    requires Clean(elem) && elem != "" && ',' !in elem && (pad == "" || pad == " ")
    ensures ListElements(pad + elem + [','] + rest) == [elem] + ListElements(rest)
  {
    TrimPadded(pad, elem);
    NextLineOf(pad + elem, ',', rest);
  }

  lemma CommaFirst(pad: string, elem: string, rest: string)
    ensures pad + (elem + ", " + rest) == pad + elem + [','] + (" " + rest)
  {
  }

  lemma {:induction false} ElementsOfJoin(pad: string, elems: seq<string>)
    requires GoodElems(elems) && (pad == "" || pad == " ") && (elems == [] ==> pad == "")
    ensures ListElements(pad + Join(elems)) == elems
    decreases |elems|
  {
    if elems == [] {
      assert pad + Join(elems) == [];
      assert ListElements([]) == [];
    } else if |elems| == 1 {
      LastElement(pad, elems[0]);
    } else {
      var rest := " " + Join(elems[1..]);
      CommaFirst(pad, elems[0], Join(elems[1..]));
      FirstElement(pad, elems[0], rest);
      ElementsOfJoin(" ", elems[1..]);
    }
  }

  lemma {:induction false} JoinHasNoNewline(elems: seq<string>)
    requires GoodElems(elems)
    ensures '\n' !in Join(elems)
    decreases |elems|
  {
    if |elems| > 1 { JoinHasNoNewline(elems[1..]); }
  }

  /** What a field line stores for a scalar's text: an inline array, or a bool, number or string. */
  function ReadValue(text: string): Outcome<Value> {
    if IsBracketed(text) then Ok(List(ListElements(text[1..|text| - 1]))) else ReadScalar(text)
  }

  lemma ScalarRoundTrip(s: Scalar)
    requires GoodScalar(s)
    ensures Show(s) != "" && Clean(Show(s)) && ReadValue(Show(s)) == Ok(ScalarValue(s))
  {
    match s
    case Bool(b) =>
    case Int(n) => CleanDigits(n); DecimalRoundTrip(n);
    case Fraction(whole, part) => FractionReads(whole, part);
    case Plain(t) =>
      assert AllIn(t, DIGITS) ==> AllIn(t, DIGITS + ".");
    case Inline(elems) =>
      var text := Show(s);
      JoinHasNoNewline(elems);
      assert text[1..|text| - 1] == "" + Join(elems);
      ElementsOfJoin("", elems);
  }
}
