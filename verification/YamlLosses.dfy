/** Documents whose stack is always tidy, and what is read instead of some that are not read back. */
module YamlLosses {
  import opened Prelude
  import opened Yaml
  import opened YamlCanonical
  import opened YamlFits
  import opened YamlRoundTrip
  import opened YamlReading
  import opened YamlDocument

  // ----- Plain documents -----

  lemma {:induction false} PlainIsRegular(entries: Entries, indent: nat)
    requires PlainEntries(entries, indent)
    ensures Regular(entries) && ArraysLast(entries, indent) && (indent > 0 ==> ArrayFree(entries))
    decreases entries, 0
  {
    if entries.Entry? {
      PlainNodeIsRegular(entries.node, indent);
      PlainIsRegular(entries.rest, indent);
      if indent > 0 { ArrayFreeEnds(entries.node); }
    }
  }

  lemma {:induction false} PlainNodeIsRegular(node: Node, indent: nat)
    requires PlainNode(node, indent)
    ensures RegularNode(node) && ArraysLastNode(node, indent) && (indent > 0 ==> ArrayFreeNode(node))
    decreases node, 1
  {
    match node
    case Leaf(_) =>
    case Block(entries) => PlainIsRegular(entries, indent + 2);
    case Array(elements) => PlainElementsAreRegular(elements);
  }

  lemma {:induction false} PlainElementsAreRegular(elements: Elements)
    requires PlainElements(elements)
    ensures RegularElements(elements) && ArraysLastElements(elements, 0)
    decreases elements, 0
  {
    if elements.Item? {
      PlainIsRegular(elements.more, 4);
      PlainElementsAreRegular(elements.rest);
    }
  }

  lemma {:induction false} ArrayFreeEnds(node: Node)
    requires ArrayFreeNode(node)
    ensures !EndsInArray(node)
    decreases node, 1
  {
    if node.Block? && node.entries.Entry? { ArrayFreeLast(node.entries); }
  }

  lemma {:induction false} ArrayFreeLast(entries: Entries)
    requires ArrayFree(entries) && entries.Entry?
    ensures !LastEndsInArray(entries)
    decreases entries, 0
  {
    if entries.rest.End? { ArrayFreeEnds(entries.node); } else { ArrayFreeLast(entries.rest); }
  }

  /** On a document without empty maps and single-line elements, with arrays under the root only, the
      stack is as deep as the indentation says at every line, the root stays at its bottom, no entry
      dangles, and none points into an array about to grow. */
  lemma {:induction false} StackDiscipline(doc: Entries)
    requires GoodEntries({}, doc) && PlainEntries(doc, 0)
    ensures Disciplined(START, Lines(doc, 0))
    ensures ReadsBack(doc)
  {
    PlainIsRegular(doc, 0);
    RegularFits(doc, 0, 1, false);
    FittingIsRead(doc, true);
  }

  // ----- Arrays under the root, with single-line elements -----

  /** No empty maps, and no arrays in the elements of an array. */
  predicate FlatElements(elements: Elements)
    decreases elements
  {
    elements.Item? ==> ArrayFree(elements.more) && Regular(elements.more) && FlatElements(elements.rest)
  }

  /** No empty maps, and arrays under the root only. */
  predicate Flat(doc: Entries)
    decreases doc
  {
    doc.Entry? ==>
      (if doc.node.Array? then FlatElements(doc.node.elements) else ArrayFreeNode(doc.node) && RegularNode(doc.node)) &&
      Flat(doc.rest)
  }

  /** How many elements are a single '-' line. */
  function ShortCount(elements: Elements): nat {
    match elements
    case Stop => 0
    case Item(_, _, more, rest) => (if more.End? then 1 else 0) + ShortCount(rest)
  }

  /** Only the last field of the document may be an array with two or more single-line elements. */
  predicate Roomy(doc: Entries)
    decreases doc
  {
    doc.Entry? ==> (doc.node.Array? && doc.rest.Entry? ==> ShortCount(doc.node.elements) < 2) && Roomy(doc.rest)
  }

  lemma {:induction false} RegularEndsFilled(entries: Entries)
    requires Regular(entries) && entries.Entry?
    ensures !LastEndsEmpty(entries)
    decreases entries, 0
  {
    if entries.rest.End? { RegularNodeEndsFilled(entries.node); } else { RegularEndsFilled(entries.rest); }
  }

  lemma {:induction false} RegularNodeEndsFilled(node: Node)
    requires RegularNode(node)
    ensures !EndsEmpty(node)
    decreases node, 1
  {
    if node.Block? { RegularEndsFilled(node.entries); }
  }

  lemma {:induction false} ArrayFreeIsArraysLast(entries: Entries, indent: nat)
    requires ArrayFree(entries)
    ensures ArraysLast(entries, indent)
    decreases entries, 0
  {
    if entries.Entry? {
      ArrayFreeEnds(entries.node);
      if entries.node.Block? { ArrayFreeIsArraysLast(entries.node.entries, indent + 2); }
      ArrayFreeIsArraysLast(entries.rest, indent);
    }
  }

  lemma {:induction false} FlatElementsMark(elements: Elements, m: Mark)
    requires FlatElements(elements) && m.level >= 0 && m.low >= 1
    ensures var after := AfterElements(elements, 0, m);
            after.level == m.level + ShortCount(elements) && after.low >= 1 &&
              (elements.Item? ==> after.dead >= after.level)
    decreases elements
  {
    if elements.Item? {
      var more, after := elements.more, AfterItem(elements.more, 0, m);
      if more.Entry? {
        ArrayFreeMarks(more, 4, Base(m, 0));
        RegularEndsFilled(more);
      }
      FlatElementsMark(elements.rest, after);
    }
  }

  lemma {:induction false} FlatElementsFit(elements: Elements, m: Mark, item: bool)
    requires FlatElements(elements) && m.level >= 0
    ensures FitsElements(elements, 0, m, item)
    decreases elements
  {
    if elements.Item? {
      var more, after := elements.more, AfterItem(elements.more, 0, m);
      RegularFits(more, 4, Base(m, 0), item || elements.rest.Item?);
      ArrayFreeIsArraysLast(more, 4);
      if more.Entry? {
        ArrayFreeMarks(more, 4, Base(m, 0));
        RegularEndsFilled(more);
      }
      FlatElementsFit(elements.rest, after, item);
    }
  }

  lemma {:induction false} FlatNode(node: Node, item: bool)
    requires if node.Array? then FlatElements(node.elements) else ArrayFreeNode(node) && RegularNode(node)
    ensures FitsNode(node, 0, 1, item)
    ensures Steady(AfterNode(node, 0, 1), 0, 1) <==> (node.Array? ==> ShortCount(node.elements) < 2)
    ensures node.Array? && node.elements.Item? ==> AfterNode(node, 0, 1).dead >= AfterNode(node, 0, 1).level
    decreases node
  {
    if node.Array? {
      FlatElementsMark(node.elements, Mark(0, 1, 0));
      FlatElementsFit(node.elements, Mark(0, 1, 0), item);
    } else {
      ArrayFreeMark(node, 0, 1);
      RegularNodeEndsFilled(node);
      if node.Block? {
        RegularFits(node.entries, 2, 1, item);
        ArrayFreeIsArraysLast(node.entries, 2);
      }
    }
  }

  lemma {:induction false} FlatFits(doc: Entries)
    requires Flat(doc)
    ensures FitsEntries(doc, 0, 1, false) <==> Roomy(doc)
    decreases doc
  {
    if doc.Entry? {
      FlatNode(doc.node, false);
      FlatFits(doc.rest);
    }
  }

  /** With a dangling pointer on top, no field can be read. */
  lemma {:induction false} FieldIsLost(st: State, key: string, node: Node, rest: seq<string>)
    requires Top(Dedent(st, 0)).None? && GoodKey(key) && GoodNode(node)
    ensures ParseFrom(st, [FieldText(key, node, 0)] + rest) == Err(UndefinedBehaviour)
  {
    var line, text := FieldText(key, node, 0), Written(node);
    WrittenIsClean(node);
    if node.Leaf? { ScalarRoundTrip(node.scalar); }
    FieldLineReads(0, key, text);
    BodyReads(key, text);
    assert ([line] + rest)[0] == line && ([line] + rest)[1..] == rest;
    assert FieldLine(Dedent(st, 0), 0, Body(key, text), NextIsItem(rest)) == Err(UndefinedBehaviour);
  }

  lemma {:induction false} CrowdedFrom(st: State, base: State, obj: Obj, used: set<string>, doc: Entries)
    requires Dedent(st, 0) == base && Ready(base, [], obj, 0) && obj.Keys == used
    requires GoodEntries(used, doc) && Flat(doc) && !Roomy(doc)
    ensures ParseFrom(st, Lines(doc, 0)) == Err(UndefinedBehaviour)
    decreases doc
  {
    var Entry(key, node, rest) := doc;
    RootAlone(base.stack, []);
    FlatNode(node, false);
    EntriesAreNoItems(used + {key}, rest, 0, []);
    NothingBefore(Lines(rest, 0));
    var m, obj' := AfterNode(node, 0, 1), obj[key := NodeValue(node)];
    var middle := NodeTakes(st, base, [], obj, 0, key, node, Lines(rest, 0), false);
    TakesMeans(st, EntryLines(key, node, 0), Lines(rest, 0), middle, false);
    if Steady(m, 0, 1) {
      var base' := ReadyAgain(middle, base, [], obj, obj', 0, m);
      CrowdedFrom(middle, base', obj', used + {key}, rest);
    } else {
      CrowdedTop(middle, base, obj, middle.data, m);
      var below := FirstLine(rest, 0, []);
      NothingBefore(Lines(rest, 0));
      FieldIsLost(middle, rest.key, rest.node, below);
    }
  }

  lemma CrowdedTop(st: State, base: State, obj: Obj, data: Obj, m: Mark)
    requires Ready(base, [], obj, 0) && Past(st, base, [], 0, data, m) && m.level >= 2 && m.dead >= m.level
    ensures Top(Dedent(st, 0)).None?
  {
    BackAt(st, base, [], obj, 0, data, m);
    RootAlone(base.stack, []);
    assert Min(m.low, |base.stack|) == 1;
    assert Dedent(st, 0).stack[m.level - 1] == st.stack[m.level - 1];
  }

  /** A document without empty maps, and with arrays under the root only, is read back if and only if
      no array with two or more single-line elements has a field after it. Such an array leaves a
      pointer to one of its elements, gone since the array grew, on top of the stack, and that field is
      written through it. */
  lemma {:induction false} FlatIff(doc: Entries)
    requires GoodEntries({}, doc) && Flat(doc)
    ensures ReadsBack(doc) <==> Roomy(doc)
    ensures !Roomy(doc) ==> Parse(Lines(doc, 0)) == Err(UndefinedBehaviour)
  {
    ReadsBackIff(doc);
    FlatFits(doc);
    StartIsReady();
    if !Roomy(doc) { CrowdedFrom(START, START, map[], {}, doc); }
  }

  // ----- Empty maps -----

  /** A key without a value opens a map even when nothing is indented below it: the fields after it
      become fields of that map, not its siblings. */
  lemma {:induction false} EmptyMapTakesItsSiblings(key: string, entries: Entries)
    requires GoodKey(key) && entries.Entry? && GoodEntries({key}, entries) && FitsEntries(entries, 0, 2, false)
    ensures Parse([FieldText(key, Block(End), 0)] + Lines(entries, 0)) == Ok(map[key := Map(Tree(entries))])
  {
    var open, line := Opened(START, [], map[], 0, key), FieldText(key, Block(End), 0);
    StartIsReady();
    FewerUsed({key}, {}, entries);
    NothingBefore(Lines(entries, 0));
    EntriesAreNoItems({}, entries, 0, []);
    BlockTakes(START, START, [], map[], 0, key, End, Lines(entries, 0), false);
    TakesMeans(START, [line], Lines(entries, 0), open, false);
    OpenedIsReady(START, [], map[], 0, key);
    OpenIsReadyAtZero(key);
    var last := EntriesTake(open, open, [Field(key)], map[], {}, 0, entries, [], false);
    TakesMeans(open, Lines(entries, 0), [], last, false);
    FieldHop(map[], key, map[], Tree(entries));
  }

  lemma OpenIsReadyAtZero(key: string)
    ensures var open := Opened(START, [], map[], 0, key);
            Dedent(open, 0) == open && Ready(open, [Field(key)], map[], 0) && Level(open, 0) == 2
  {
    OpenedIsReady(START, [], map[], 0, key);
    assert [] + [Field(key)] == [Field(key)];
  }

  lemma {:induction false} FewerUsed(used: set<string>, fewer: set<string>, entries: Entries)
    requires GoodEntries(used, entries) && fewer <= used
    ensures GoodEntries(fewer, entries)
    decreases entries
  {
    if entries.Entry? { FewerUsed(used + {entries.key}, fewer + {entries.key}, entries.rest); }
  }

  lemma {:induction false} OpenTakes(st: State, base: State, path: Path, obj: Obj, indent: nat, key: string,
                                     entries: Entries, rest: seq<string>)
    returns (st': State)
    requires Dedent(st, indent) == base && Ready(base, path, obj, indent)
    requires GoodKey(key) && entries.Entry? && GoodEntries({}, entries)
    requires FitsEntries(entries, indent + 2, Level(base, indent), NextIsItem(rest))
    ensures Takes(st, EntryLines(key, Block(entries), indent), rest, st', false)
    ensures var open := Opened(base, path, obj, indent, key);
            Past(st', open, path + [Field(key)], indent + 2, Store(base.data, path, obj[key := Map(Tree(entries))]),
                 AfterEntries(entries, indent + 2, Level(base, indent)))
  {
    var open := Opened(base, path, obj, indent, key);
    EntriesAreNoItems({}, entries, indent + 2, rest);
    BlockTakes(st, base, path, obj, indent, key, entries, Lines(entries, indent + 2) + rest, false);
    OpenedIsReady(base, path, obj, indent, key);
    st' := EntriesTake(open, open, path + [Field(key)], map[], {}, indent + 2, entries, rest, false);
    TakesBoth(st, [FieldText(key, Block(entries), indent)], Lines(entries, indent + 2), rest, open, st', false);
    FillingABlock(base.data, path, obj, key, map[], Tree(entries));
  }

  lemma {:induction false} OpenMapTakes(key: string, entries: Entries, rest: seq<string>) returns (st: State)
    requires GoodKey(key) && entries.Entry? && GoodEntries({}, entries) && FitsEntries(entries, 2, 1, NextIsItem(rest))
    ensures Takes(START, EntryLines(key, Block(entries), 0), rest, st, false)
    ensures Past(st, Opened(START, [], map[], 0, key), [Field(key)], 2, map[key := Map(Tree(entries))],
            AfterEntries(entries, 2, 1))
  {
    StartIsReady();
    st := OpenTakes(START, START, [], map[], 0, key, entries, rest);
    assert [] + [Field(key)] == [Field(key)];
    assert map[][key := Map(Tree(entries))] == map[key := Map(Tree(entries))];
  }

  /** A map whose last line is the key of an empty map is not closed: the next field of the root, if it
      has no field of that name, becomes one of its fields. */
  lemma {:induction false} EmptyMapKeepsItsMapOpen(key: string, entries: Entries, after: string, s: Scalar)
    requires GoodKey(key) && entries.Entry? && GoodEntries({}, entries)
    requires ArrayFree(entries) && EmptyLast(entries) && LastEndsEmpty(entries)
    requires GoodKey(after) && GoodScalar(s) && after !in Tree(entries)
    ensures Parse(EntryLines(key, Block(entries), 0) + [FieldText(after, Leaf(s), 0)]) ==
            Ok(map[key := Map(Tree(entries)[after := ScalarValue(s)])])
  {
    var last, tree, tree' := [FieldText(after, Leaf(s), 0)], Tree(entries), Tree(entries)[after := ScalarValue(s)];
    ScalarIsNoItem(after, s, 0);
    ArrayFreeFits(entries, 2, 1);
    ArrayFreeMarks(entries, 2, 1);
    var st := OpenMapTakes(key, entries, last);
    TakesMeans(START, EntryLines(key, Block(entries), 0), last, st, false);
    StillOpen(st, key, tree, AfterEntries(entries, 2, 1));
    LastFieldRead(st, [Field(key)], tree, 0, after, s);
    StoredInField(key, tree, tree');
  }

  lemma StoredInField(key: string, before: Obj, inner: Obj)
    ensures Store(map[key := Map(before)], [Field(key)], inner) == map[key := Map(inner)]
  {
    FieldHop(map[], key, before, inner);
    assert map[][key := Map(before)] == map[key := Map(before)] && map[][key := Map(inner)] == map[key := Map(inner)];
  }

  lemma {:induction false} ScalarIsNoItem(key: string, s: Scalar, indent: nat)
    requires GoodKey(key) && GoodScalar(s)
    ensures !NextIsItem([FieldText(key, Leaf(s), indent)])
  {
    ScalarRoundTrip(s);
    FieldIsNoItem(key, Show(s), indent, []);
    NothingBefore([FieldText(key, Leaf(s), indent)]);
  }

  lemma StillOpen(st: State, key: string, inner: Obj, m: Mark)
    requires Past(st, Opened(START, [], map[], 0, key), [Field(key)], 2, map[key := Map(inner)], m)
    requires m.level == 2 && m.low >= 2
    ensures var level := Dedent(st, 0);
            level.data == map[key := Map(inner)] && Ready(level, [Field(key)], inner, 0)
  {
    var open := Opened(START, [], map[], 0, key);
    assert [] + [Field(key)] == [Field(key)] && [To([])] + [To([Field(key)])] == [To([]), To([Field(key)])];
    DedentGives(st, 0, 0);
    assert SizeAt(st, 0) == 2 && st.stack[..2] == open.stack[..2] == open.stack;
    FieldHop(map[], key, inner, inner);
    assert map[][key := Map(inner)] == map[key := Map(inner)];
  }

  /** One more scalar, read at the end of the file in the map on top of the stack. */
  lemma {:induction false} LastFieldRead(st: State, path: Path, obj: Obj, indent: nat, key: string, s: Scalar)
    requires Ready(Dedent(st, indent), path, obj, indent) && key !in obj && GoodKey(key) && GoodScalar(s)
    ensures ParseFrom(st, [FieldText(key, Leaf(s), indent)]) ==
            Ok(Store(Dedent(st, indent).data, path, obj[key := ScalarValue(s)]))
  {
    var base, line := Dedent(st, indent), FieldText(key, Leaf(s), indent);
    LeafTakes(st, base, path, obj, indent, key, s, [], false);
    EntryLinesOfLeaf(key, s, indent);
    LastLine(st, line, Stored(base, path, obj, indent, key, ScalarValue(s)));
  }

  lemma EntryLinesOfLeaf(key: string, s: Scalar, indent: nat)
    ensures EntryLines(key, Leaf(s), indent) == [FieldText(key, Leaf(s), indent)]
  {
  }

  lemma {:induction false} LastLine(st: State, line: string, st': State)
    requires Takes(st, [line], [], st', false)
    ensures ParseFrom(st, [line]) == Ok(st'.data)
  {
    TakesMeans(st, [line], [], st', false);
    NothingBefore([line]);
  }

  // ----- Repeated keys -----

  /** What a repeated key makes of the map: a scalar is ignored, an inline array replaces what was there. */
  function Repeated(obj: Obj, key: string, s: Scalar): Obj {
    if s.Inline? then obj[key := ScalarValue(s)] else obj
  }

  lemma {:induction false} RepeatedLine(base: State, path: Path, obj: Obj, indent: nat, key: string, s: Scalar)
    requires Ready(base, path, obj, indent) && key in obj && GoodKey(key) && GoodScalar(s)
    ensures FieldLine(base, indent, Body(key, Show(s)), false) ==
            Ok(base.(data := if s.Inline? then Store(base.data, path, obj[key := ScalarValue(s)]) else base.data,
                     previous := indent))
  {
    ScalarRoundTrip(s);
    BodyReads(key, Show(s));
    AssignFresh(base, path, obj, indent, key, ScalarValue(s));
    if !s.Inline? { NotBracketed(s); }
  }

  lemma {:induction false} NotBracketed(s: Scalar)
    requires GoodScalar(s) && !s.Inline?
    ensures !IsBracketed(Show(s))
  {
    match s
    case Bool(_) =>
    case Int(n) => CleanDigits(n);
    case Fraction(whole, part) => FractionReads(whole, part);
    case Plain(_) =>
  }

  /** One more field of the root with a key it has already, when the count is right for another field. */
  lemma {:induction false} RepeatedKey(doc: Entries, key: string, s: Scalar)
    requires GoodEntries({}, doc) && Fits(doc) && doc.Entry? && Steady(AfterEntries(doc, 0, 1), 0, 1)
    requires GoodKey(key) && GoodScalar(s) && key in Tree(doc)
    ensures Parse(Lines(doc, 0) + [FieldText(key, Leaf(s), 0)]) == Ok(Repeated(Tree(doc), key, s))
  {
    var line, m := FieldText(key, Leaf(s), 0), AfterEntries(doc, 0, 1);
    StartIsReady();
    ScalarIsNoItem(key, s, 0);
    var st := EntriesTake(START, START, [], map[], {}, 0, doc, [line], false);
    TakesMeans(START, Lines(doc, 0), [line], st, false);
    var base := ReadyAgain(st, START, [], map[], Tree(doc), 0, m);
    ScalarRoundTrip(s);
    RepeatedLine(base, [], Tree(doc), 0, key, s);
    assert !NextIsItem([]);
    FieldTakes(st, base, [], Tree(doc), 0, key, Show(s), [],
               base.(data := Repeated(Tree(doc), key, s), previous := 0), false);
    LastLine(st, line, base.(data := Repeated(Tree(doc), key, s), previous := 0));
  }

  // ----- Nested arrays -----

  lemma {:induction false} NestedTakes(outer: string, entries: Entries, rest: seq<string>) returns (st: State)
    requires GoodKey(outer) && entries.Entry? && GoodEntries({}, entries)
    requires FitsEntries(entries, 2, 1, NextIsItem(rest)) && AfterEntries(entries, 2, 1).level <= 0
    ensures Takes(START, EntryLines(outer, Block(entries), 0), rest, st, false)
    ensures Dedent(st, 2) == State(map[outer := Map(Tree(entries))], [To([])], [], [], 2)
  {
    var open, m := Opened(START, [], map[], 0, outer), AfterEntries(entries, 2, 1);
    st := OpenMapTakes(outer, entries, rest);
    StartIsReady();
    OpenedIsReady(START, [], map[], 0, outer);
    assert [] + [Field(outer)] == [Field(outer)];
    BackAt(st, open, [Field(outer)], map[], 2, map[outer := Map(Tree(entries))], m);
    BackAtRoot(st, open, [Field(outer)], m);
  }

  /** A map that ends with a block array, all of its elements with further fields, is closed with it: one
      stack entry is removed for each two columns left, but the array has none of its own. The map's
      next field goes to the root. */
  lemma {:induction false} NestedArrayEndsItsMap(outer: string, entries: Entries, after: string, s: Scalar)
    requires GoodKey(outer) && GoodKey(after) && outer != after && GoodScalar(s)
    requires GoodEntries({}, entries) && Regular(entries) && ArraysLast(entries, 2)
    requires entries.Entry? && LastEndsInArray(entries)
    ensures Parse(EntryLines(outer, Block(entries), 0) + [FieldText(after, Leaf(s), 2)]) ==
            Ok(map[outer := Map(Tree(entries)), after := ScalarValue(s)])
  {
    var last, data := [FieldText(after, Leaf(s), 2)], map[outer := Map(Tree(entries))];
    ScalarIsNoItem(after, s, 2);
    RegularFits(entries, 2, 1, false);
    RegularMarks(entries, 2, 1);
    var st := NestedTakes(outer, entries, last);
    TakesMeans(START, EntryLines(outer, Block(entries), 0), last, st, false);
    assert Ready(Dedent(st, 2), [], data, 2);
    LastFieldRead(st, [], data, 2, after, s);
  }

  lemma BackAtRoot(st: State, base: State, path: Path, m: Mark)
    requires Past(st, base, path, 2, st.data, m) && base.stack[0] == To([]) && m.level <= 0
    ensures SizeAt(st, 2) == 1 && st.stack[..1] == [To([])]
  {
    assert st.stack[..Min(m.low, |base.stack|)][0] == base.stack[..Min(m.low, |base.stack|)][0];
  }

  /** What follows an inner array may be an item of an array that is itself nested in a map. */
  lemma {:induction false} ItemAfterInnerArray(outer: string, list: string, k: string, t: string, inner: string,
                                               below: Elements, k': string, t': string, more: Entries)
    requires var doc := Entry(outer, Block(TwoElements(list, k, t, inner, below, k', t', more)), End);
             GoodEntries({}, doc) && RegularElements(below) && ArraysLastElements(below, 6) &&
             more.Entry? && Regular(more) && ArraysLast(more, 6)
    ensures var doc := Entry(outer, Block(TwoElements(list, k, t, inner, below, k', t', more)), End);
            ReadsBack(doc)
  {
    var doc := Entry(outer, Block(TwoElements(list, k, t, inner, below, k', t', more)), End);
    var field, second := Entry(inner, Array(below), End), Item(k', t', more, Stop);
    var both := Item(k, t, field, second);
    assert RegularNode(Array(below)) && ArraysLastNode(Array(below), 6);
    assert Regular(field) && ArraysLast(field, 6);
    assert RegularElements(second) && ArraysLastElements(second, 2);
    assert RegularElements(both) && ArraysLastElements(both, 2);
    assert RegularNode(Array(both)) && ArraysLastNode(Array(both), 2);
    assert Regular(Entry(list, Array(both), End)) && ArraysLast(Entry(list, Array(both), End), 2);
    assert RegularNode(doc.node) && ArraysLastNode(doc.node, 0);
    RegularIff(doc);
  }

  function TwoElements(list: string, k: string, t: string, inner: string, below: Elements, k': string, t': string,
                       more: Entries): Entries {
    Entry(list, Array(Item(k, t, Entry(inner, Array(below), End), Item(k', t', more, Stop))), End)
  }
}
