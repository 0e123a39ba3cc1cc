/** The slots that the lines of a printed document are for: one for each field and each element. */
module YamlSlots {
  import opened Prelude
  import opened Yaml
  import opened YamlCanonical
  import opened YamlReading
  import opened YamlWrites

  function NodeSlots(path: Path, key: string, node: Node): set<Path>
    decreases node, 2
  {
    {path + [Field(key)]} + BelowSlots(path, key, node)
  }

  function BelowSlots(path: Path, key: string, node: Node): set<Path>
    decreases node, 1
  {
    match node
    case Leaf(_) => {}
    case Block(entries) => EntriesSlots(path + [Field(key)], entries)
    case Array(elements) => ElementsSlots(path, key, 0, elements)
  }

  function EntriesSlots(path: Path, entries: Entries): set<Path>
    decreases entries, 0
  {
    match entries
    case End => {}
    case Entry(key, node, rest) => NodeSlots(path, key, node) + EntriesSlots(path, rest)
  }

  /** The slots of element `i` and of its fields. */
  function ItemSlots(path: Path, key: string, i: nat, k: string, more: Entries): set<Path>
    decreases more, 1
  {
    {path + [Elem(key, i)], path + [Elem(key, i), Field(k)]} + EntriesSlots(path + [Elem(key, i)], more)
  }

  function ElementsSlots(path: Path, key: string, i: nat, elements: Elements): set<Path>
    decreases elements, 0
  {
    match elements
    case Stop => {}
    case Item(k, _, more, rest) => ItemSlots(path, key, i, k, more) + ElementsSlots(path, key, i + 1, rest)
  }

  function Keys(entries: Entries): set<string> {
    match entries
    case End => {}
    case Entry(key, _, rest) => {key} + Keys(rest)
  }

  lemma {:induction false} KeysAreNew(used: set<string>, entries: Entries)
    requires GoodEntries(used, entries)
    ensures Keys(entries) !! used
    decreases entries
  {
    if entries.Entry? { KeysAreNew(used + {entries.key}, entries.rest); }
  }

  // ----- Where they are -----

  /** `q` is under `path`, and so is the slot it is in, unless that is `path`. */
  ghost predicate Within(q: Path, path: Path, slots: set<Path>) {
    path < q && (Parent(q) == path || Parent(q) in slots)
  }

  lemma {:induction false} NodeSlotsWithin(path: Path, key: string, node: Node, q: Path)
    requires q in NodeSlots(path, key, node)
    ensures Within(q, path, NodeSlots(path, key, node)) && Into(q, path, key)
    decreases node, 1
  {
    var slot := path + [Field(key)];
    if q == slot {
      assert Parent(q) == path;
    } else if node.Block? {
      EntriesSlotsWithin(slot, node.entries, q);
      assert q[..|path|] == slot[..|path|] == path && q[|path|] == slot[|path|];
    } else {
      ElementsSlotsWithin(path, key, 0, node.elements, q);
    }
  }

  lemma {:induction false} EntriesSlotsWithin(path: Path, entries: Entries, q: Path)
    requires q in EntriesSlots(path, entries)
    ensures Within(q, path, EntriesSlots(path, entries)) && q[|path|].key in Keys(entries)
    decreases entries, 0
  {
    var Entry(key, node, rest) := entries;
    if q in NodeSlots(path, key, node) { NodeSlotsWithin(path, key, node, q); }
      else { EntriesSlotsWithin(path, rest, q); }
  }

  lemma {:induction false} ItemSlotsWithin(path: Path, key: string, i: nat, k: string, more: Entries, q: Path)
    requires q in ItemSlots(path, key, i, k, more)
    ensures Within(q, path, ItemSlots(path, key, i, k, more)) && q[|path|] == Elem(key, i)
    decreases more, 1
  {
    var slot := path + [Elem(key, i)];
    if q == slot {
      assert Parent(q) == path;
    } else if q == path + [Elem(key, i), Field(k)] {
      assert Parent(q) == slot;
    } else {
      EntriesSlotsWithin(slot, more, q);
      assert q[..|path|] == slot[..|path|] == path && q[|path|] == slot[|path|];
    }
  }

  lemma {:induction false} ElementsSlotsWithin(path: Path, key: string, i: nat, elements: Elements, q: Path)
    requires q in ElementsSlots(path, key, i, elements)
    ensures Within(q, path, ElementsSlots(path, key, i, elements)) && Into(q, path, key)
    ensures q[|path|].Elem? && q[|path|].i >= i
    decreases elements, 0
  {
    var Item(k, _, more, rest) := elements;
    if q in ItemSlots(path, key, i, k, more) {
      ItemSlotsWithin(path, key, i, k, more, q);
    } else {
      ElementsSlotsWithin(path, key, i + 1, rest, q);
    }
  }

  // ----- How many they are -----

  lemma {:induction false} BudgetOfLine(line: string, rest: seq<string>)
    requires !Skipped(Trim(line))
    ensures Budget([line] + rest) == LineBudget(Trim(line)) + Budget(rest)
  {
    assert ([line] + rest)[0] == line && ([line] + rest)[1..] == rest;
  }

  lemma {:induction false} BudgetOfField(key: string, node: Node, indent: nat, rest: seq<string>)
    requires GoodKey(key) && GoodNode(node)
    ensures Budget([FieldText(key, node, indent)] + rest) == 1 + Budget(rest)
  {
    WrittenIsClean(node);
    FieldLineReads(indent, key, Written(node));
    BodyReads(key, Written(node));
    BudgetOfLine(FieldText(key, node, indent), rest);
  }

  lemma {:induction false} BudgetOfItem(k: string, t: string, indent: nat, rest: seq<string>)
    requires GoodKey(k) && Clean(t)
    ensures Budget([ItemText(k, t, indent)] + rest) == 2 + Budget(rest)
  {
    ItemLineReads(indent + 2, k, t);
    BudgetOfLine(ItemText(k, t, indent), rest);
  }

  lemma {:induction false} NodeCount(path: Path, key: string, node: Node, indent: nat)
    requires GoodKey(key) && GoodNode(node)
    ensures |NodeSlots(path, key, node)| == Budget(EntryLines(key, node, indent))
    decreases node, 2
  {
    BudgetOfField(key, node, indent, NodeLines(node, indent));
    BelowCount(path, key, node, indent);
    BelowSlotsApart(path, key, node);
    SizeOfUnion({path + [Field(key)]}, BelowSlots(path, key, node));
  }

  lemma {:induction false} BelowCount(path: Path, key: string, node: Node, indent: nat)
    requires GoodNode(node)
    ensures |BelowSlots(path, key, node)| == Budget(NodeLines(node, indent))
    decreases node, 1
  {
    match node
    case Leaf(_) =>
    case Block(entries) => EntriesCount(path + [Field(key)], {}, entries, indent + 2);
    case Array(elements) => ElementsCount(path, key, 0, elements, indent);
  }

  lemma {:induction false} BelowSlotsApart(path: Path, key: string, node: Node)
    ensures path + [Field(key)] !in BelowSlots(path, key, node)
  {
    var slot := path + [Field(key)];
    if slot in BelowSlots(path, key, node) {
      if node.Block? { EntriesSlotsWithin(slot, node.entries, slot); }
        else { ElementsSlotsWithin(path, key, 0, node.elements, slot); }
    }
  }

  lemma {:induction false} EntriesCount(path: Path, used: set<string>, entries: Entries, indent: nat)
    requires GoodEntries(used, entries)
    ensures |EntriesSlots(path, entries)| == Budget(Lines(entries, indent))
    decreases entries, 0
  {
    if entries.Entry? {
      var Entry(key, node, rest) := entries;
      NodeCount(path, key, node, indent);
      EntriesCount(path, used + {key}, rest, indent);
      BudgetOfBoth(EntryLines(key, node, indent), Lines(rest, indent));
      KeysAreNew(used + {key}, rest);
      forall q | q in NodeSlots(path, key, node) ensures q !in EntriesSlots(path, rest) {
        NodeSlotsWithin(path, key, node, q);
        if q in EntriesSlots(path, rest) { EntriesSlotsWithin(path, rest, q); }
      }
      SizeOfUnion(NodeSlots(path, key, node), EntriesSlots(path, rest));
    }
  }

  lemma {:induction false} ItemCount(path: Path, key: string, i: nat, k: string, t: string, more: Entries, indent: nat)
    requires GoodKey(k) && Clean(t) && GoodEntries({k}, more)
    ensures |ItemSlots(path, key, i, k, more)| == Budget(ItemLines(k, t, more, indent))
    decreases more, 1
  {
    var slot, first := path + [Elem(key, i)], path + [Elem(key, i), Field(k)];
    BudgetOfItem(k, t, indent, Lines(more, indent + 4));
    EntriesCount(slot, {k}, more, indent + 4);
    KeysAreNew({k}, more);
    forall q | q in EntriesSlots(slot, more) ensures q != slot && q != first { EntriesSlotsWithin(slot, more, q); }
    assert |slot| != |first| && |{slot, first}| == 2;
    SizeOfUnion({slot, first}, EntriesSlots(slot, more));
  }

  lemma {:induction false} ElementsCount(path: Path, key: string, i: nat, elements: Elements, indent: nat)
    requires GoodElements(elements)
    ensures |ElementsSlots(path, key, i, elements)| == Budget(ElementLines(elements, indent))
    decreases elements, 0
  {
    if elements.Item? {
      var Item(k, t, more, rest) := elements;
      ItemCount(path, key, i, k, t, more, indent);
      ElementsCount(path, key, i + 1, rest, indent);
      BudgetOfBoth(ItemLines(k, t, more, indent), ElementLines(rest, indent));
      forall q | q in ItemSlots(path, key, i, k, more) ensures q !in ElementsSlots(path, key, i + 1, rest) {
        ItemSlotsWithin(path, key, i, k, more, q);
        if q in ElementsSlots(path, key, i + 1, rest) { ElementsSlotsWithin(path, key, i + 1, rest, q); }
      }
      SizeOfUnion(ItemSlots(path, key, i, k, more), ElementsSlots(path, key, i + 1, rest));
    }
  }

  // ----- They are all in the tree of the document -----

  lemma {:induction false} EarlierKeysStay(obj: Obj, used: set<string>, entries: Entries, key: string)
    requires GoodEntries(used, entries) && key in used && key in obj
    ensures key in Fields(obj, entries) && Fields(obj, entries)[key] == obj[key]
    decreases entries
  {
    if entries.Entry? {
      EarlierKeysStay(obj[entries.key := NodeValue(entries.node)], used + {entries.key}, entries.rest, key);
    }
  }

  /** The field written first has the value it should. */
  lemma {:induction false} FirstField(obj: Obj, used: set<string>, entries: Entries)
    requires GoodEntries(used, entries) && entries.Entry?
    ensures entries.key in Fields(obj, entries) && Fields(obj, entries)[entries.key] == NodeValue(entries.node)
  {
    EarlierKeysStay(obj[entries.key := NodeValue(entries.node)], used + {entries.key}, entries.rest, entries.key);
  }

  lemma {:induction false} EarlierElementsStay(objs: seq<Obj>, elements: Elements)
    ensures objs <= ElementObjs(objs, elements)
    decreases elements
  {
    if elements.Item? {
      var first := ItemObj(elements.key, elements.text, elements.more);
      EarlierElementsStay(objs + [first], elements.rest);
      assert objs <= objs + [first];
    }
  }

  lemma {:induction false} OneHopHas(root: Obj, path: Path, obj: Obj, hop: Hop)
    requires Find(root, path) == Some(obj)
    ensures Has(root, path + [hop]) == Holds(obj, hop) && IsArray(root, path + [hop]) == HoldsArray(obj, hop)
    ensures hop.Field? && hop.key in obj && obj[hop.key].Map? ==> Find(root, path + [hop]) == Some(obj[hop.key].obj)
    ensures Holds(obj, hop) && hop.Elem? ==> Find(root, path + [hop]) == Some(obj[hop.key].items[hop.i])
  {
    HopHas(obj, hop);
    SlotUnder(root, path, [hop]);
    FindUnder(root, path, [hop]);
  }

  lemma {:induction false} HopHas(obj: Obj, hop: Hop)
    ensures Has(obj, [hop]) == Holds(obj, hop) && IsArray(obj, [hop]) == HoldsArray(obj, hop)
    ensures hop.Field? && hop.key in obj && obj[hop.key].Map? ==> Find(obj, [hop]) == Some(obj[hop.key].obj)
    ensures Holds(obj, hop) && hop.Elem? ==> Find(obj, [hop]) == Some(obj[hop.key].items[hop.i])
  {
    assert Parent([hop]) == [] && [hop][1..] == [];
  }

  lemma {:induction false} NodeIsThere(root: Obj, path: Path, obj: Obj, key: string, node: Node, q: Path)
    requires Find(root, path) == Some(obj) && key in obj && obj[key] == NodeValue(node) && GoodNode(node)
    requires q in NodeSlots(path, key, node)
    ensures Has(root, q)
    decreases node, 1
  {
    OneHopHas(root, path, obj, Field(key));
    if q != path + [Field(key)] {
      if node.Block? {
        EntriesAreThere(root, path + [Field(key)], map[], {}, node.entries, q);
      } else {
        ElementsAreThere(root, path, obj, key, [], node.elements, q);
      }
    }
  }

  lemma {:induction false} EntriesAreThere(root: Obj, path: Path, obj: Obj, used: set<string>, entries: Entries,
                                           q: Path)
    requires Find(root, path) == Some(Fields(obj, entries)) && GoodEntries(used, entries) &&
             q in EntriesSlots(path, entries)
    ensures Has(root, q)
    decreases entries, 0
  {
    var Entry(key, node, rest) := entries;
    if q in NodeSlots(path, key, node) {
      FirstField(obj, used, entries);
      NodeIsThere(root, path, Fields(obj, entries), key, node, q);
    } else {
      EntriesAreThere(root, path, obj[key := NodeValue(node)], used + {key}, rest, q);
    }
  }

  /** The next element has the fields it should. */
  lemma {:induction false} ElementIsThere(root: Obj, path: Path, obj: Obj, key: string, objs: seq<Obj>,
                                          elements: Elements)
    requires Find(root, path) == Some(obj) && key in obj && obj[key] == Items(ElementObjs(objs, elements)) &&
             elements.Item?
    ensures Has(root, path + [Elem(key, |objs|)])
    ensures Find(root, path + [Elem(key, |objs|)]) == Some(ItemObj(elements.key, elements.text, elements.more))
  {
    var first := ItemObj(elements.key, elements.text, elements.more);
    EarlierElementsStay(objs + [first], elements.rest);
    assert ElementObjs(objs, elements)[|objs|] == (objs + [first])[|objs|];
    OneHopHas(root, path, obj, Elem(key, |objs|));
  }

  lemma {:induction false} ElementsAreThere(root: Obj, path: Path, obj: Obj, key: string, objs: seq<Obj>,
                                            elements: Elements, q: Path)
    requires Find(root, path) == Some(obj) && key in obj && obj[key] == Items(ElementObjs(objs, elements))
    requires GoodElements(elements) && q in ElementsSlots(path, key, |objs|, elements)
    ensures Has(root, q)
    decreases elements, 0
  {
    var Item(k, t, more, rest) := elements;
    var slot := path + [Elem(key, |objs|)];
    if q in ItemSlots(path, key, |objs|, k, more) {
      ElementIsThere(root, path, obj, key, objs, elements);
      if q == path + [Elem(key, |objs|), Field(k)] {
        assert q == slot + [Field(k)];
        EarlierKeysStay(map[k := Str(t)], {k}, more, k);
        OneHopHas(root, slot, ItemObj(k, t, more), Field(k));
      } else if q != slot {
        EntriesAreThere(root, slot, map[k := Str(t)], {k}, more, q);
      }
    } else {
      ElementsAreThere(root, path, obj, key, objs + [ItemObj(k, t, more)], rest, q);
    }
  }
}
