/** Whole documents: exactly when one is read back, in general and for three kinds of documents. */
module YamlDocument {
  import opened Prelude
  import opened Yaml
  import opened YamlCanonical
  import opened YamlFits
  import opened YamlRoundTrip
  import opened YamlReading
  import opened YamlMisplaced

  /** The tree a document stands for. */
  function Tree(doc: Entries): Obj {
    Fields(map[], doc)
  }

  /** Reading the printed document rebuilds exactly its tree. */
  predicate ReadsBack(doc: Entries) {
    Parse(Lines(doc, 0)) == Ok(Tree(doc))
  }

  lemma StartIsReady()
    ensures Dedent(START, 0) == START && Ready(START, [], map[], 0) && Level(START, 0) == 1 && Neat(START, 0)
  {
  }

  lemma {:induction false} FittingIsRead(doc: Entries, neat: bool)
    requires GoodEntries({}, doc) && Fits(doc) && (neat ==> PlainEntries(doc, 0))
    ensures ReadsBack(doc)
    ensures neat ==> Disciplined(START, Lines(doc, 0))
  {
    if doc.Entry? {
      StartIsReady();
      var st := EntriesTake(START, START, [], map[], {}, 0, doc, [], neat);
      TakesMeans(START, Lines(doc, 0), [], st, neat);
      NothingBefore(Lines(doc, 0));
    }
  }

  lemma {:induction false} OthersAreNot(doc: Entries)
    requires GoodEntries({}, doc) && !Fits(doc)
    ensures !ReadsBack(doc)
  {
    StartIsReady();
    EntriesFail(START, START, [], map[], {}, 0, doc, [], Tree(doc), {});
    NothingBefore(Lines(doc, 0));
    assert Differs(START, Lines(doc, 0), Tree(doc));
  }

  /** A document is read back if and only if the count is right for it: each field finds its own map on
      top of the stack, and no empty map has an item next. */
  lemma {:induction false} ReadsBackIff(doc: Entries)
    requires GoodEntries({}, doc)
    ensures ReadsBack(doc) <==> Fits(doc)
  {
    if Fits(doc) { FittingIsRead(doc, false); } else { OthersAreNot(doc); }
  }

  // ----- Documents without arrays -----

  predicate ArrayFreeNode(node: Node)
    decreases node, 1
  {
    match node
    case Leaf(_) => true
    case Block(entries) => ArrayFree(entries)
    case Array(_) => false
  }

  predicate ArrayFree(entries: Entries)
    decreases entries, 0
  {
    entries.Entry? ==> ArrayFreeNode(entries.node) && ArrayFree(entries.rest)
  }

  /** No empty map is anywhere but on the very last line of these. */
  predicate EmptyLast(entries: Entries)
    decreases entries, 0
  {
    match entries
    case End => true
    case Entry(_, node, rest) => EmptyLastNode(node) && (rest.Entry? ==> !EndsEmpty(node) && EmptyLast(rest))
  }

  predicate EmptyLastNode(node: Node)
    decreases node, 1
  {
    node.Block? ==> EmptyLast(node.entries)
  }

  /** The last line is the key of an empty map. */
  predicate EndsEmpty(node: Node)
    decreases node, 1
  {
    node.Block? && (node.entries.End? || LastEndsEmpty(node.entries))
  }

  predicate LastEndsEmpty(entries: Entries)
    requires entries.Entry?
    decreases entries, 0
  {
    if entries.rest.End? then EndsEmpty(entries.node) else LastEndsEmpty(entries.rest)
  }

  lemma {:induction false} ArrayFreeMark(node: Node, indent: nat, b: int)
    requires ArrayFreeNode(node) && indent % 2 == 0
    ensures var m := AfterNode(node, indent, b);
            m.level == b + (if EndsEmpty(node) then 1 else 0) && m.low >= b + indent / 2
    decreases node, 1
  {
    if node.Block? && node.entries.Entry? { ArrayFreeMarks(node.entries, indent + 2, b); }
  }

  lemma {:induction false} ArrayFreeMarks(entries: Entries, indent: nat, b: int)
    requires ArrayFree(entries) && entries.Entry? && indent % 2 == 0
    ensures var m := AfterEntries(entries, indent, b);
            m.level == b + (if LastEndsEmpty(entries) then 1 else 0) && m.low >= b + indent / 2
    decreases entries, 0
  {
    if entries.rest.End? { ArrayFreeMark(entries.node, indent, b); } else { ArrayFreeMarks(entries.rest, indent, b); }
  }

  lemma {:induction false} ArrayFreeFits(entries: Entries, indent: nat, b: int)
    requires ArrayFree(entries) && indent % 2 == 0 && b + indent / 2 >= 1
    ensures FitsEntries(entries, indent, b, false) <==> EmptyLast(entries)
    decreases entries, 0
  {
    if entries.Entry? {
      ArrayFreeNodeFits(entries.node, indent, b);
      ArrayFreeMark(entries.node, indent, b);
      ArrayFreeFits(entries.rest, indent, b);
    }
  }

  lemma {:induction false} ArrayFreeNodeFits(node: Node, indent: nat, b: int)
    requires ArrayFreeNode(node) && indent % 2 == 0 && b + indent / 2 >= 1
    ensures FitsNode(node, indent, b, false) <==> EmptyLastNode(node)
    decreases node, 1
  {
    if node.Block? { ArrayFreeFits(node.entries, indent + 2, b); }
  }

  /** A document without arrays is read back if and only if it has no empty map, but for its last line. */
  lemma {:induction false} WithoutArraysIff(doc: Entries)
    requires GoodEntries({}, doc) && ArrayFree(doc)
    ensures ReadsBack(doc) <==> EmptyLast(doc)
  {
    ReadsBackIff(doc);
    ArrayFreeFits(doc, 0, 1);
  }

  // ----- Documents without empty maps and without single-line elements -----

  predicate RegularNode(node: Node)
    decreases node, 1
  {
    match node
    case Leaf(_) => true
    case Block(entries) => entries.Entry? && Regular(entries)
    case Array(elements) => RegularElements(elements)
  }

  predicate Regular(entries: Entries)
    decreases entries, 0
  {
    entries.Entry? ==> RegularNode(entries.node) && Regular(entries.rest)
  }

  predicate RegularElements(elements: Elements)
    decreases elements, 0
  {
    elements.Item? ==> elements.more.Entry? && Regular(elements.more) && RegularElements(elements.rest)
  }

  /** The last line is in an array of this field, or of a map in it. */
  predicate EndsInArray(node: Node)
    decreases node, 1
  {
    match node
    case Leaf(_) => false
    case Block(entries) => entries.Entry? && LastEndsInArray(entries)
    case Array(_) => true
  }

  predicate LastEndsInArray(entries: Entries)
    requires entries.Entry?
    decreases entries, 0
  {
    if entries.rest.End? then EndsInArray(entries.node) else LastEndsInArray(entries.rest)
  }

  /** No field, except the root's, comes next after an array that it is outside of. */
  predicate ArraysLast(entries: Entries, indent: nat)
    decreases entries, 0
  {
    match entries
    case End => true
    case Entry(_, node, rest) =>
      ArraysLastNode(node, indent) && (rest.Entry? ==> (indent > 0 ==> !EndsInArray(node)) && ArraysLast(rest, indent))
  }

  predicate ArraysLastNode(node: Node, indent: nat)
    decreases node, 1
  {
    match node
    case Leaf(_) => true
    case Block(entries) => ArraysLast(entries, indent + 2)
    case Array(elements) => ArraysLastElements(elements, indent)
  }

  predicate ArraysLastElements(elements: Elements, indent: nat)
    decreases elements, 0
  {
    elements.Item? ==> ArraysLast(elements.more, indent + 4) && ArraysLastElements(elements.rest, indent)
  }

  lemma {:induction false} RegularMark(node: Node, indent: nat, b: int)
    requires RegularNode(node) && indent % 2 == 0 && b + indent / 2 >= 1
    ensures var m := AfterNode(node, indent, b);
            if EndsInArray(node) then m.level < b else m.level == b && m.low >= b + indent / 2
    ensures indent == 0 ==> AfterNode(node, indent, b).low >= 1
    decreases node, 1
  {
    match node
    case Leaf(_) =>
    case Block(entries) => RegularMarks(entries, indent + 2, b);
    case Array(elements) => RegularElementsMark(elements, indent, Mark(b - 1, b + indent / 2, 0));
  }

  lemma {:induction false} RegularMarks(entries: Entries, indent: nat, b: int)
    requires Regular(entries) && entries.Entry? && indent % 2 == 0 && b + indent / 2 >= 1
    ensures var m := AfterEntries(entries, indent, b);
            if LastEndsInArray(entries) then m.level < b else m.level == b && m.low >= b + indent / 2
    ensures AfterEntries(entries, indent, b).low >= 1
    decreases entries, 0
  {
    LowIsPositive(entries, indent, b);
    if entries.rest.End? { RegularMark(entries.node, indent, b); } else { RegularMarks(entries.rest, indent, b); }
  }

  lemma {:induction false} RegularElementsMark(elements: Elements, indent: nat, m: Mark)
    requires RegularElements(elements) && indent % 2 == 0 && m.level >= -(indent / 2) && m.low >= 1
    ensures AfterElements(elements, indent, m).level <= m.level && AfterElements(elements, indent, m).low >= 1
    decreases elements, 0
  {
    if elements.Item? {
      RegularMarks(elements.more, indent + 4, Base(m, indent));
      RegularItems(elements.rest, indent, AfterItem(elements.more, indent, m));
    }
  }

  /** Later elements start no higher than the first. */
  lemma {:induction false} RegularItems(elements: Elements, indent: nat, m: Mark)
    requires RegularElements(elements) && indent % 2 == 0 && m.low >= 1
    ensures AfterElements(elements, indent, m).level <= Base(m, indent)
    ensures elements.Stop? ==> AfterElements(elements, indent, m).level == m.level
    ensures AfterElements(elements, indent, m).low >= 1
    decreases elements, 0
  {
    if elements.Item? {
      RegularMarks(elements.more, indent + 4, Base(m, indent));
      RegularItems(elements.rest, indent, AfterItem(elements.more, indent, m));
    }
  }

  // Sizes are never less than one.

  lemma {:induction false} LowIsPositiveNode(node: Node, indent: nat, b: int)
    requires b + indent / 2 >= 1 && indent % 2 == 0
    ensures AfterNode(node, indent, b).low >= 1
    decreases node, 1
  {
    match node
    case Leaf(_) =>
    case Block(entries) => if entries.Entry? { LowIsPositive(entries, indent + 2, b); }
    case Array(elements) => LowIsPositiveElements(elements, indent, Mark(b - 1, b + indent / 2, 0));
  }

  lemma {:induction false} LowIsPositive(entries: Entries, indent: nat, b: int)
    requires entries.Entry? && b + indent / 2 >= 1 && indent % 2 == 0
    ensures AfterEntries(entries, indent, b).low >= 1
    decreases entries, 0
  {
    if entries.rest.End? { LowIsPositiveNode(entries.node, indent, b); }
      else { LowIsPositive(entries.rest, indent, b); }
  }

  lemma {:induction false} LowIsPositiveElements(elements: Elements, indent: nat, m: Mark)
    requires m.low >= 1 && indent % 2 == 0
    ensures AfterElements(elements, indent, m).low >= 1
    decreases elements, 0
  {
    if elements.Item? {
      if elements.more.Entry? { LowIsPositive(elements.more, indent + 4, Base(m, indent)); }
      LowIsPositiveElements(elements.rest, indent, AfterItem(elements.more, indent, m));
    }
  }

  lemma {:induction false} RegularFits(entries: Entries, indent: nat, b: int, item: bool)
    requires Regular(entries) && indent % 2 == 0 && b + indent / 2 >= 1 && (indent == 0 <==> b + indent / 2 == 1)
    ensures FitsEntries(entries, indent, b, item) <==> ArraysLast(entries, indent)
    decreases entries, 0
  {
    if entries.Entry? {
      RegularNodeFits(entries.node, indent, b, item && entries.rest.End?);
      RegularMark(entries.node, indent, b);
      RegularFits(entries.rest, indent, b, item);
    }
  }

  lemma {:induction false} RegularNodeFits(node: Node, indent: nat, b: int, item: bool)
    requires RegularNode(node) && indent % 2 == 0 && b + indent / 2 >= 1
    ensures FitsNode(node, indent, b, item) <==> ArraysLastNode(node, indent)
    decreases node, 1
  {
    match node
    case Leaf(_) =>
    case Block(entries) => RegularFits(entries, indent + 2, b, item);
    case Array(elements) => RegularElementsFit(elements, indent, Mark(b - 1, b + indent / 2, 0), item);
  }

  lemma {:induction false} RegularElementsFit(elements: Elements, indent: nat, m: Mark, item: bool)
    requires RegularElements(elements) && indent % 2 == 0
    ensures FitsElements(elements, indent, m, item) <==> ArraysLastElements(elements, indent)
    decreases elements, 0
  {
    if elements.Item? {
      RegularFits(elements.more, indent + 4, Base(m, indent), item || elements.rest.Item?);
      RegularElementsFit(elements.rest, indent, AfterItem(elements.more, indent, m), item);
    }
  }

  /** A document without empty maps and single-line elements is read back if and only if after leaving
      an array the next line, if any, is an item or a field of the root. */
  lemma {:induction false} RegularIff(doc: Entries)
    requires GoodEntries({}, doc) && Regular(doc)
    ensures ReadsBack(doc) <==> ArraysLast(doc, 0)
  {
    ReadsBackIff(doc);
    RegularFits(doc, 0, 1, false);
  }
}
