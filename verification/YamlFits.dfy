/**
  Which documents are read back: a count over the document of what the parser leaves on its stack.

  The parser closes levels by columns: one stack entry for every two columns left. A field opens a map
  for two columns, as counted; an array opens no map of its own for its two columns, an element opens
  one for its first two columns, and a key with nothing below it opens a map for none.
*/
module YamlFits {
  import opened YamlCanonical

  function Min(a: int, b: int): int {
    if a <= b then a else b
  }

  function Max(a: int, b: int): int {
    if a >= b then a else b
  }

  /**
    The parser's stack after some lines.
    `level` is its size less one for each two columns of the last line's indentation: coming back to
    column c leaves level + c / 2 entries, but always the root.
    `low` is the least size there was on the way, when an array's next element began.
    Above the part that has never been removed, all entries below `dead` are dangling.
  */
  datatype Mark = Mark(level: int, low: int, dead: int)

  /** The level of the maps that are elements of an array, of a key at `indent`, after `m`. */
  function Base(m: Mark, indent: nat): int {
    Max(m.level, -(indent / 2))
  }

  /** The size of the stack just before such an element is pushed. */
  function ItemSize(m: Mark, indent: nat): int {
    Base(m, indent) + indent / 2 + 1
  }

  // In these functions `indent` is the column of a key, and `b` the level of the map it is a key of.

  function AfterNode(node: Node, indent: nat, b: int): Mark
    decreases node, 1
  {
    match node
    case Leaf(_) => Mark(b, b + indent / 2, 0)
    case Block(entries) =>
      if entries.End? then Mark(b + 1, b + indent / 2, 0)
      else AfterEntries(entries, indent + 2, b).(dead := 0)
    case Array(elements) => AfterElements(elements, indent, Mark(b - 1, b + indent / 2, 0))
  }

  /** Only the last field matters, if each field before it was followed by one of the same map. */
  function AfterEntries(entries: Entries, indent: nat, b: int): Mark
    requires entries.Entry?
    decreases entries, 0
  {
    if entries.rest.End? then AfterNode(entries.node, indent, b) else AfterEntries(entries.rest, indent, b)
  }

  function AfterItem(more: Entries, indent: nat, m: Mark): Mark
    decreases more, 1
  {
    var b, size := Base(m, indent), ItemSize(m, indent);
    if more.End? then Mark(b + 1, Min(m.low, size), size)
    else
      var inner := AfterEntries(more, indent + 4, b);
      Mark(inner.level, Min(Min(m.low, size), inner.low), Min(size, inner.low))
  }

  function AfterElements(elements: Elements, indent: nat, m: Mark): Mark
    decreases elements, 0
  {
    match elements
    case Stop => m
    case Item(_, _, more, rest) => AfterElements(rest, indent, AfterItem(more, indent, m))
  }

  /** The map with keys at `indent` is on top of the stack again: the stack has the size it had, and
      has not been smaller meanwhile. It is never smaller than the root alone. */
  predicate Steady(m: Mark, indent: nat, b: int) {
    Max(1, m.level + indent / 2) == b + indent / 2 && m.low >= b + indent / 2
  }

  // `item` says that the next line after the lines in question is an item.

  /** A key with nothing below it, and an item next, would be taken for the key of an array. */
  predicate FitsNode(node: Node, indent: nat, b: int, item: bool)
    decreases node, 1
  {
    match node
    case Leaf(_) => true
    case Block(entries) => if entries.End? then !item else FitsEntries(entries, indent + 2, b, item)
    case Array(elements) => FitsElements(elements, indent, Mark(b - 1, b + indent / 2, 0), item)
  }

  predicate FitsEntries(entries: Entries, indent: nat, b: int, item: bool)
    decreases entries, 0
  {
    match entries
    case End => true
    case Entry(_, node, rest) =>
      FitsNode(node, indent, b, item && rest.End?) &&
      (rest.Entry? ==> Steady(AfterNode(node, indent, b), indent, b) && FitsEntries(rest, indent, b, item))
  }

  predicate FitsElements(elements: Elements, indent: nat, m: Mark, item: bool)
    decreases elements, 0
  {
    match elements
    case Stop => true
    case Item(_, _, more, rest) =>
      FitsEntries(more, indent + 4, Base(m, indent), item || rest.Item?) &&
      FitsElements(rest, indent, AfterItem(more, indent, m), item)
  }

  /** Every field finds its own map on top of the stack, and no empty map is taken for an array. */
  predicate Fits(doc: Entries) {
    FitsEntries(doc, 0, 1, false)
  }

  // ----- Documents whose stack is always exactly as deep as the indentation says -----

  /** No empty maps, no single-line elements, and arrays under the root only. */
  predicate PlainNode(node: Node, indent: nat)
    decreases node, 1
  {
    match node
    case Leaf(_) => true
    case Block(entries) => entries.Entry? && PlainEntries(entries, indent + 2)
    case Array(elements) => indent == 0 && PlainElements(elements)
  }

  predicate PlainEntries(entries: Entries, indent: nat)
    decreases entries, 0
  {
    match entries
    case End => true
    case Entry(_, node, rest) => PlainNode(node, indent) && PlainEntries(rest, indent)
  }

  predicate PlainElements(elements: Elements)
    decreases elements, 0
  {
    match elements
    case Stop => true
    case Item(_, _, more, rest) => more.Entry? && PlainEntries(more, 4) && PlainElements(rest)
  }

  lemma {:induction false} PlainNodeMark(node: Node, indent: nat, b: int)
    requires PlainNode(node, indent) && indent > 0
    ensures AfterNode(node, indent, b).level == b && AfterNode(node, indent, b).low >= b + indent / 2
    decreases node, 1
  {
    if node.Block? { PlainEntriesMark(node.entries, indent + 2, b); }
  }

  lemma {:induction false} PlainEntriesMark(entries: Entries, indent: nat, b: int)
    requires PlainEntries(entries, indent) && entries.Entry? && indent > 0
    ensures AfterEntries(entries, indent, b).level == b && AfterEntries(entries, indent, b).low >= b + indent / 2
    decreases entries, 0
  {
    if entries.rest.End? { PlainNodeMark(entries.node, indent, b); } else { PlainEntriesMark(entries.rest, indent, b); }
  }
}
