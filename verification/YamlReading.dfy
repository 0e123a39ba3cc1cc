/** Reading printed fields, maps and arrays, line by line, where the count is right. */
module YamlReading {
  import opened Prelude
  import opened Yaml
  import opened YamlCanonical
  import opened YamlFits
  import opened YamlRoundTrip

  ghost predicate SameFrom(st: State, lines: seq<string>, st': State, rest: seq<string>, neat: bool) {
    ParseFrom(st, lines) == ParseFrom(st', rest) &&
    (neat ==> (Disciplined(st, lines) <==> Disciplined(st', rest)))
  }

  /** The parser takes `lines` from `st` to `st'` when `rest` follows; and if `neat`, with a tidy stack
      all the way. (Quantified, so that proofs unfold the parser only where they name `SameFrom`.) */
  ghost predicate Takes(st: State, lines: seq<string>, rest: seq<string>, st': State, neat: bool) {
    forall all :: all == lines + rest ==> SameFrom(st, all, st', rest, neat)
  }

  lemma {:induction false} TakesOne(st: State, line: string, rest: seq<string>, st': State, neat: bool)
    requires !Skipped(Trim(line)) && Step(st, Indent(line), Trim(line), NextIsItem(rest)) == Ok(st')
    requires neat ==> Tidy(Dedent(st, Indent(line)), Indent(line), Trim(line))
    ensures Takes(st, [line], rest, st', neat)
  {
    assert ([line] + rest)[0] == line && ([line] + rest)[1..] == rest;
    assert SameFrom(st, [line] + rest, st', rest, neat);
  }

  lemma {:induction false} SameInTurn(st: State, lines: seq<string>, middle: State, lines': seq<string>, st': State,
                                      rest: seq<string>, neat: bool)
    requires SameFrom(st, lines, middle, lines', neat) && SameFrom(middle, lines', st', rest, neat)
    ensures SameFrom(st, lines, st', rest, neat)
  {
  }

  lemma {:induction false} TakesBoth(st: State, xs: seq<string>, ys: seq<string>, rest: seq<string>, middle: State,
                                     st': State, neat: bool)
    requires Takes(st, xs, ys + rest, middle, neat) && Takes(middle, ys, rest, st', neat)
    ensures Takes(st, xs + ys, rest, st', neat)
  {
    forall all | all == (xs + ys) + rest ensures SameFrom(st, all, st', rest, neat) {
      assert all == xs + (ys + rest);
      SameInTurn(st, all, middle, ys + rest, st', rest, neat);
    }
  }

  lemma {:induction false} TakesMeans(st: State, lines: seq<string>, rest: seq<string>, st': State, neat: bool)
    requires Takes(st, lines, rest, st', neat)
    ensures ParseFrom(st, lines + rest) == ParseFrom(st', rest)
    ensures neat ==> (Disciplined(st, lines + rest) <==> Disciplined(st', rest))
  {
    assert SameFrom(st, lines + rest, st', rest, neat);
  }

  lemma NothingBefore<T>(s: seq<T>)
    ensures [] + s == s && s + [] == s
  {
  }

  // ----- One field line -----

  lemma AssignFresh(st: State, path: Path, obj: Obj, indent: nat, key: string, value: Value)
    requires Ready(st, path, obj, indent)
    ensures Assign(st, key, value) == Ok(st.(data := Store(st.data, path, obj[key := value])))
  {
    assert Invalidate(st, path, key).stack == st.stack;
    assert Invalidate(st, path, key).arrays == st.arrays;
  }

  /** The state after a field line has stored a scalar. */
  function Stored(base: State, path: Path, obj: Obj, indent: nat, key: string, value: Value): State {
    base.(data := Store(base.data, path, obj[key := value]), previous := indent)
  }

  lemma ScalarLine(base: State, path: Path, obj: Obj, indent: nat, key: string, s: Scalar)
    requires Ready(base, path, obj, indent) && key !in obj && GoodKey(key) && GoodScalar(s)
    ensures FieldLine(base, indent, Body(key, Show(s)), false) ==
            Ok(Stored(base, path, obj, indent, key, ScalarValue(s)))
  {
    ScalarRoundTrip(s);
    BodyReads(key, Show(s));
    AssignFresh(base, path, obj, indent, key, ScalarValue(s));
  }

  /** Lookahead matters only for a key without a value. */
  lemma LookAheadUnused(base: State, indent: nat, body: string, arrayFollows: bool)
    requires After(body) != ""
    ensures FieldLine(base, indent, body, arrayFollows) == FieldLine(base, indent, body, false)
  {
  }

  /** The state after the line that opens a map. */
  function Opened(base: State, path: Path, obj: Obj, indent: nat, key: string): State {
    base.(data := Store(base.data, path, obj[key := Map(map[])]),
          stack := base.stack + [To(path + [Field(key)])], previous := indent)
  }

  lemma BlockLine(base: State, path: Path, obj: Obj, indent: nat, key: string)
    requires Ready(base, path, obj, indent) && GoodKey(key)
    ensures FieldLine(base, indent, Body(key, ""), false) == Ok(Opened(base, path, obj, indent, key))
  {
    BodyReads(key, "");
    AssignFresh(base, path, obj, indent, key, Map(map[]));
  }

  /** `base` with the array under `key` of the map at `path` open. */
  function WithArray(base: State, path: Path, indent: nat, key: string): State {
    base.(arrays := base.arrays + [ToArray(path, key)], indents := base.indents + [indent + 2])
  }

  /** The state after the line that opens an array. */
  function Listed(base: State, path: Path, obj: Obj, indent: nat, key: string): State {
    WithArray(base, path, indent, key).(data := Store(base.data, path, obj[key := Items([])]), previous := indent)
  }

  lemma ArrayLine(base: State, path: Path, obj: Obj, indent: nat, key: string)
    requires Ready(base, path, obj, indent) && GoodKey(key)
    ensures FieldLine(base, indent, Body(key, ""), true) == Ok(Listed(base, path, obj, indent, key))
  {
    BodyReads(key, "");
    AssignFresh(base, path, obj, indent, key, Items([]));
  }

  lemma {:induction false} FieldStep(st: State, base: State, path: Path, obj: Obj, indent: nat, key: string,
                                     text: string, arrayFollows: bool)
    requires Dedent(st, indent) == base && Ready(base, path, obj, indent) && GoodKey(key) && Clean(text)
    ensures var line := Spaces(indent) + Body(key, text);
            !Skipped(Trim(line)) && (Neat(base, indent) ==> Tidy(Dedent(st, Indent(line)), Indent(line), Trim(line))) &&
            Step(st, Indent(line), Trim(line), arrayFollows) == FieldLine(base, indent, Body(key, text), arrayFollows)
  {
    FieldLineReads(indent, key, text);
    BodyReads(key, text);
  }

  lemma {:induction false} FieldTakes(st: State, base: State, path: Path, obj: Obj, indent: nat, key: string,
                                      text: string, rest: seq<string>, st': State, neat: bool)
    requires Dedent(st, indent) == base && Ready(base, path, obj, indent) && GoodKey(key) && Clean(text)
    requires FieldLine(base, indent, Body(key, text), NextIsItem(rest)) == Ok(st')
    requires neat ==> Neat(base, indent)
    ensures Takes(st, [Spaces(indent) + Body(key, text)], rest, st', neat)
  {
    FieldStep(st, base, path, obj, indent, key, text, NextIsItem(rest));
    TakesOne(st, Spaces(indent) + Body(key, text), rest, st', neat);
  }

  // ----- What the next line is -----

  /** A printed line of a field is not an item. */
  lemma {:induction false} FieldIsNoItem(key: string, text: string, indent: nat, rest: seq<string>)
    requires GoodKey(key) && Clean(text)
    ensures !NextIsItem([Spaces(indent) + Body(key, text)] + rest)
  {
    FieldLineReads(indent, key, text);
    BodyReads(key, text);
    assert ([Spaces(indent) + Body(key, text)] + rest)[0] == Spaces(indent) + Body(key, text);
  }

  lemma {:induction false} ItemIsItem(key: string, text: string, indent: nat, rest: seq<string>)
    requires GoodKey(key) && Clean(text)
    ensures NextIsItem([ItemText(key, text, indent)] + rest)
  {
    ItemLineReads(indent + 2, key, text);
    assert ([ItemText(key, text, indent)] + rest)[0] == ItemText(key, text, indent);
  }

  lemma WrittenIsClean(node: Node)
    requires GoodNode(node)
    ensures Clean(Written(node)) && (node.Leaf? <==> Written(node) != "")
  {
    if node.Leaf? { ScalarRoundTrip(node.scalar); }
  }

  lemma Regroup(line: string, below: seq<string>, rest: seq<string>)
    ensures ([line] + below) + rest == [line] + (below + rest)
  {
  }

  lemma {:induction false} FirstLine(entries: Entries, indent: nat, rest: seq<string>) returns (below: seq<string>)
    requires entries.Entry?
    ensures Lines(entries, indent) + rest == [FieldText(entries.key, entries.node, indent)] + below
    ensures below == NodeLines(entries.node, indent) + (Lines(entries.rest, indent) + rest)
  {
    var line, more := FieldText(entries.key, entries.node, indent), Lines(entries.rest, indent);
    below := NodeLines(entries.node, indent) + (more + rest);
    Regroup(line, NodeLines(entries.node, indent), more);
    Regroup(line, NodeLines(entries.node, indent) + more, rest);
    assert (NodeLines(entries.node, indent) + more) + rest == below;
  }

  /** What follows decides only when there are no lines of one's own. */
  lemma {:induction false} EntriesAreNoItems(used: set<string>, entries: Entries, indent: nat, rest: seq<string>)
    requires GoodEntries(used, entries)
    ensures NextIsItem(Lines(entries, indent) + rest) == (entries.End? && NextIsItem(rest))
  {
    if entries.End? {
      NothingBefore(rest);
    } else {
      var below := FirstLine(entries, indent, rest);
      WrittenIsClean(entries.node);
      FieldIsNoItem(entries.key, Written(entries.node), indent, below);
    }
  }

  lemma {:induction false} ElementsAreItems(elements: Elements, indent: nat, rest: seq<string>)
    requires GoodElements(elements)
    ensures NextIsItem(ElementLines(elements, indent) + rest) == (elements.Item? || NextIsItem(rest))
  {
    match elements
    case Stop => NothingBefore(rest);
    case Item(key, text, more, others) =>
      var line := ItemText(key, text, indent);
      Regroup(line, Lines(more, indent + 4), ElementLines(others, indent));
      Regroup(line, Lines(more, indent + 4) + ElementLines(others, indent), rest);
      ItemIsItem(key, text, indent, (Lines(more, indent + 4) + ElementLines(others, indent)) + rest);
  }

  // ----- The three kinds of key lines -----

  lemma {:induction false} LeafTakes(st: State, base: State, path: Path, obj: Obj, indent: nat, key: string, s: Scalar,
                                     rest: seq<string>, neat: bool)
    requires Dedent(st, indent) == base && Ready(base, path, obj, indent) && (neat ==> Neat(base, indent))
    requires key !in obj && GoodKey(key) && GoodScalar(s)
    ensures Takes(st, EntryLines(key, Leaf(s), indent), rest, Stored(base, path, obj, indent, key, ScalarValue(s)),
            neat)
  {
    ScalarRoundTrip(s);
    BodyReads(key, Show(s));
    ScalarLine(base, path, obj, indent, key, s);
    LookAheadUnused(base, indent, Body(key, Show(s)), NextIsItem(rest));
    FieldTakes(st, base, path, obj, indent, key, Show(s), rest, Stored(base, path, obj, indent, key, ScalarValue(s)),
      neat);
    NothingBefore([FieldText(key, Leaf(s), indent)]);
  }

  lemma BlockTakes(st: State, base: State, path: Path, obj: Obj, indent: nat, key: string, entries: Entries,
                   rest: seq<string>, neat: bool)
    requires Dedent(st, indent) == base && Ready(base, path, obj, indent) && (neat ==> Neat(base, indent))
    requires GoodKey(key) && !NextIsItem(rest)
    ensures Takes(st, [FieldText(key, Block(entries), indent)], rest, Opened(base, path, obj, indent, key), neat)
  {
    BlockLine(base, path, obj, indent, key);
    FieldTakes(st, base, path, obj, indent, key, "", rest, Opened(base, path, obj, indent, key), neat);
  }

  lemma ArrayTakes(st: State, base: State, path: Path, obj: Obj, indent: nat, key: string, node: Node,
                   rest: seq<string>, neat: bool)
    requires Dedent(st, indent) == base && Ready(base, path, obj, indent) && (neat ==> Neat(base, indent))
    requires GoodKey(key) && !node.Leaf? && NextIsItem(rest)
    ensures Takes(st, [FieldText(key, node, indent)], rest, Listed(base, path, obj, indent, key), neat)
  {
    ArrayLine(base, path, obj, indent, key);
    FieldTakes(st, base, path, obj, indent, key, "", rest, Listed(base, path, obj, indent, key), neat);
  }

  lemma StoredIsPast(base: State, path: Path, obj: Obj, indent: nat, key: string, s: Scalar)
    requires Ready(base, path, obj, indent)
    ensures Past(Stored(base, path, obj, indent, key, ScalarValue(s)), base, path, indent,
                 Store(base.data, path, obj[key := ScalarValue(s)]), AfterNode(Leaf(s), indent, Level(base, indent)))
  {
  }

  // ----- Maps -----

  lemma OpenedIsReady(base: State, path: Path, obj: Obj, indent: nat, key: string)
    requires Ready(base, path, obj, indent)
    ensures Ready(Opened(base, path, obj, indent, key), path + [Field(key)], map[], indent + 2)
    ensures Neat(Opened(base, path, obj, indent, key), indent + 2) == Neat(base, indent)
    ensures Level(Opened(base, path, obj, indent, key), indent + 2) == Level(base, indent)
  {
    FillingABlock(base.data, path, obj, key, map[], map[]);
    var stack := Opened(base, path, obj, indent, key).stack;
    assert base.stack == stack[..|base.stack|] && stack[|base.stack|].To?;
  }

  lemma OpenedIsPast(base: State, path: Path, obj: Obj, indent: nat, key: string)
    requires Ready(base, path, obj, indent)
    ensures Past(Opened(base, path, obj, indent, key), base, path, indent,
                 Store(base.data, path, obj[key := Map(map[])]), AfterNode(Block(End), indent, Level(base, indent)))
  {
  }

  /** What is past the fields of an inner map is past the field that holds it. */
  lemma PastInner(st: State, base: State, path: Path, obj: Obj, indent: nat, key: string, inner: Obj, m: Mark)
    requires Ready(base, path, obj, indent)
    requires var open := Opened(base, path, obj, indent, key);
             Past(st, open, path + [Field(key)], indent + 2, Store(open.data, path + [Field(key)], inner), m)
    ensures Past(st, base, path, indent, Store(base.data, path, obj[key := Map(inner)]), m.(dead := 0))
  {
    FillingABlock(base.data, path, obj, key, map[], inner);
    StackInner(st.stack, base.stack, path, key, st.previous, m);
  }

  lemma StackInner(stack: seq<Ptr>, below: seq<Ptr>, path: Path, key: string, previous: int, m: Mark)
    requires |below| > 0 && StackOver(stack, below + [To(path + [Field(key)])], path + [Field(key)], previous, m)
    ensures StackOver(stack, below, path, previous, m.(dead := 0))
  {
    var open := below + [To(path + [Field(key)])];
    var kept, k := Min(m.low, |below|), Min(m.low, |open|);
    assert stack[..kept] == stack[..k][..kept] == open[..k][..kept] == below[..kept];
    forall i | kept <= i < |stack| && stack[i].To? ensures path < stack[i].path {
      if i < k { assert stack[i] == stack[..k][i] == open[i] == To(path + [Field(key)]); }
    }
  }

  // ----- Arrays -----

  function Leftovers(n: nat): seq<Ptr> {
    seq(n, _ => Dangling)
  }

  /** How much of the stack `below` is still there when the next element of an array begins. */
  function KeptAt(below: seq<Ptr>, indent: nat, m: Mark): int {
    Min(Min(m.low, ItemSize(m, indent)), |below|)
  }

  /** Ready for an element: above what is kept there is nothing but what is inside the array. */
  ghost predicate Between(level: State, base: State, path: Path, obj: Obj, indent: nat, key: string, items: seq<Obj>,
                          m: Mark) {
    level == State(Store(base.data, path, obj[key := Items(items)]), level.stack,
                   base.arrays + [ToArray(path, key)], base.indents + [indent + 2], level.previous) &&
    |level.stack| == ItemSize(m, indent) &&
      BetweenStack(level.stack, base.stack, path, key, KeptAt(base.stack, indent, m))
  }

  ghost predicate BetweenStack(stack: seq<Ptr>, below: seq<Ptr>, path: Path, key: string, kept: int) {
    1 <= kept <= |stack| && kept <= |below| && stack[..kept] == below[..kept] &&
    forall i :: kept <= i < |stack| && stack[i].To? ==> Into(stack[i].path, path, key)
  }

  /** The stack in an element: an append leaves the pointers into the array dangling. */
  function ItemStack(below: seq<Ptr>, path: Path, indent: nat, key: string, n: nat, m: Mark): seq<Ptr>
    requires 1 <= KeptAt(below, indent, m)
  {
    below[..KeptAt(below, indent, m)] + Leftovers(ItemSize(m, indent) - KeptAt(below, indent, m)) +
      [To(path + [Elem(key, n)])]
  }

  /** In the element `item`, the last one so far. */
  function InElement(base: State, path: Path, obj: Obj, indent: nat, key: string, items: seq<Obj>, item: Obj,
                     m: Mark): State
    requires 1 <= KeptAt(base.stack, indent, m)
  {
    State(Store(base.data, path, obj[key := Items(items + [item])]),
      ItemStack(base.stack, path, indent, key, |items|, m),
          base.arrays + [ToArray(path, key)], base.indents + [indent + 2], indent + 2)
  }

  /** After an element, and whatever levels it left open. */
  ghost predicate PastItem(st: State, base: State, path: Path, obj: Obj, indent: nat, key: string, items: seq<Obj>,
                           m: Mark) {
    st.data == Store(base.data, path, obj[key := Items(items)]) && st.previous >= indent + 2 && st.previous % 2 == 0 &&
    ArraysOver(st, base.arrays + [ToArray(path, key)], base.indents + [indent + 2], indent + 2) &&
    StackOver(st.stack, base.stack, path, st.previous, m) &&
    forall i :: Min(m.low, |base.stack|) <= i < |st.stack| && st.stack[i].To? ==> Into(st.stack[i].path, path, key)
  }

  lemma ListedIsReady(base: State, path: Path, obj: Obj, indent: nat, key: string)
    requires Ready(base, path, obj, indent)
    ensures var st := Listed(base, path, obj, indent, key);
            Dedent(st, indent + 2) == st &&
            Between(st, base, path, obj, indent, key, [],
              Mark(Level(base, indent) - 1, Level(base, indent) + indent / 2, 0))
  {
  }

  /** Coming back from an element for the next one. */
  lemma NextItem(st: State, base: State, path: Path, obj: Obj, indent: nat, key: string, items: seq<Obj>, m: Mark)
    requires Ready(base, path, obj, indent) && PastItem(st, base, path, obj, indent, key, items, m)
    ensures Between(Dedent(st, indent + 2), base, path, obj, indent, key, items, m)
  {
    BackForItem(st, base, path, obj, indent, key, items, m);
    StackForItem(st.stack, base.stack, path, indent, key, st.previous, m);
  }

  lemma BackForItem(st: State, base: State, path: Path, obj: Obj, indent: nat, key: string, items: seq<Obj>, m: Mark)
    requires Ready(base, path, obj, indent) && PastItem(st, base, path, obj, indent, key, items, m)
    ensures SizeAt(st, indent + 2) == ItemSize(m, indent) && 1 <= ItemSize(m, indent) <= |st.stack|
    ensures Dedent(st, indent + 2) ==
            State(st.data, st.stack[..ItemSize(m, indent)], base.arrays + [ToArray(path, key)],
                  base.indents + [indent + 2], indent + 2)
  {
    var n, arrays, indents := |base.indents| + 1, base.arrays + [ToArray(path, key)], base.indents + [indent + 2];
    forall i | 0 <= i < n ensures st.indents[i] <= indent + 2 { assert st.indents[i] == indents[i]; }
    DedentGives(st, indent + 2, n);
    assert st.arrays[..n] == arrays && st.indents[..n] == indents;
  }

  lemma StackForItem(stack: seq<Ptr>, below: seq<Ptr>, path: Path, indent: nat, key: string, previous: int, m: Mark)
    requires |below| > 0 && StackOver(stack, below, path, previous, m) && 1 <= ItemSize(m, indent) <= |stack|
    requires forall i :: Min(m.low, |below|) <= i < |stack| && stack[i].To? ==> Into(stack[i].path, path, key)
    ensures BetweenStack(stack[..ItemSize(m, indent)], below, path, key, KeptAt(below, indent, m))
  {
    var size, kept := ItemSize(m, indent), KeptAt(below, indent, m);
    assert stack[..size][..kept] == stack[..Min(m.low, |below|)][..kept] == below[..kept];
    assert kept == size || kept == Min(m.low, |below|);
  }

  /** After the last element comes the next field of the map around, or of one further out. */
  lemma LeaveArray(st: State, base: State, path: Path, obj: Obj, indent: nat, key: string, items: seq<Obj>, m: Mark)
    requires Ready(base, path, obj, indent) && PastItem(st, base, path, obj, indent, key, items, m)
    ensures Past(st, base, path, indent, Store(base.data, path, obj[key := Items(items)]), m)
  {
    var indents := base.indents + [indent + 2];
    forall i | |base.indents| <= i < |st.indents| ensures indent < st.indents[i] <= st.previous {
      if i == |base.indents| { assert st.indents[i] == indents[i] == indent + 2; }
    }
    assert base.arrays <= st.arrays && base.indents <= st.indents;
  }

  lemma ItemOpens(level: State, base: State, path: Path, obj: Obj, indent: nat, key: string, items: seq<Obj>, m: Mark)
    requires Ready(base, path, obj, indent) && Between(level, base, path, obj, indent, key, items, m)
    ensures PushItem(level) == Ok(InElement(base, path, obj, indent, key, items, map[], m).(previous := level.previous))
  {
    var owner := obj[key := Items(items)];
    FindStored(base.data, path, owner);
    StoreTwice(base.data, path, owner, obj[key := Items(items + [map[]])]);
    assert owner[key := Items(items + [map[]])] == obj[key := Items(items + [map[]])];
    assert level.arrays[|level.arrays| - 1] == ToArray(path, key) && owner[key].items == items;
    assert PushItem(level).Ok?;
    var pushed, kept := PushItem(level).value, KeptAt(base.stack, indent, m);
    ItemStackIs(level.stack, base.stack, path, indent, key, |items|, m, pushed.stack);
    assert pushed.arrays == level.arrays;
  }

  lemma ItemStackIs(stack: seq<Ptr>, below: seq<Ptr>, path: Path, indent: nat, key: string, n: nat, m: Mark,
                    pushed: seq<Ptr>)
    requires ReadyStack(below, path) && |stack| == ItemSize(m, indent)
    requires BetweenStack(stack, below, path, key, KeptAt(below, indent, m))
    requires |pushed| == |stack| + 1 && pushed[|stack|] == To(path + [Elem(key, n)])
    requires forall i :: 0 <= i < |stack| ==>
      pushed[i] == if stack[i].To? && Into(stack[i].path, path, key) then Dangling else stack[i]
    ensures pushed == ItemStack(below, path, indent, key, n, m)
  {
    var kept := KeptAt(below, indent, m);
    forall i | 0 <= i < kept ensures pushed[i] == below[i] {
      assert stack[i] == stack[..kept][i] == below[..kept][i];
    }
  }

  lemma ItemStores(base: State, path: Path, obj: Obj, indent: nat, key: string, items: seq<Obj>, m: Mark, previous: int,
                   k: string, value: Value)
    requires Ready(base, path, obj, indent) && 1 <= KeptAt(base.stack, indent, m)
    ensures Assign(InElement(base, path, obj, indent, key, items, map[], m).(previous := previous), k, value) ==
            Ok(InElement(base, path, obj, indent, key, items, map[k := value], m).(previous := previous))
  {
    var st := InElement(base, path, obj, indent, key, items, map[], m).(previous := previous);
    var inner := path + [Elem(key, |items|)];
    FillingAnElement(base.data, path, obj, key, items, map[], map[k := value]);
    var gone := Invalidate(st, inner, k);
    ItemStackIsShort(base.stack, path, indent, key, |items|, m);
    assert gone.stack == st.stack && gone.arrays == st.arrays;
    assert map[][k := value] == map[k := value];
  }

  lemma ItemStackIsShort(below: seq<Ptr>, path: Path, indent: nat, key: string, n: nat, m: Mark)
    requires ReadyStack(below, path) && 1 <= KeptAt(below, indent, m)
    ensures var stack, inner := ItemStack(below, path, indent, key, n, m), path + [Elem(key, n)];
            ReadyStack(stack, inner) && |stack| == ItemSize(m, indent) + 1 &&
            forall i :: 0 <= i < |stack| && stack[i].To? ==> |stack[i].path| <= |inner|
  {
    var stack, kept := ItemStack(below, path, indent, key, n, m), KeptAt(below, indent, m);
    assert forall i :: 0 <= i < kept ==> stack[i] == below[i];
    assert forall i :: kept <= i < |stack| - 1 ==> stack[i].Dangling?;
  }

  lemma ElementIsReady(base: State, path: Path, obj: Obj, indent: nat, key: string, items: seq<Obj>, item: Obj, m: Mark)
    requires Ready(base, path, obj, indent) && 1 <= KeptAt(base.stack, indent, m)
    ensures var st := InElement(base, path, obj, indent, key, items, item, m);
            Ready(st, path + [Elem(key, |items|)], item, indent + 4) && Dedent(st, indent + 4) == st &&
            Level(st, indent + 4) == Base(m, indent)
  {
    FillingAnElement(base.data, path, obj, key, items, item, item);
    ItemStackIsShort(base.stack, path, indent, key, |items|, m);
  }

  /** The elements of an array under the root, of a document that is neat so far. */
  ghost predicate NeatItems(base: State, path: Path, indent: nat, m: Mark) {
    path == [] && indent == 0 && Neat(base, indent) && m.level == 0 && m.low >= 1
  }

  lemma ItemIsNeat(level: State, base: State, path: Path, obj: Obj, indent: nat, key: string, items: seq<Obj>,
                   item: Obj, m: Mark, body: string)
    requires Ready(base, path, obj, indent) && Between(level, base, path, obj, indent, key, items, m)
    requires NeatItems(base, path, indent, m)
    ensures Tidy(level, indent + 2, body) && Neat(InElement(base, path, obj, indent, key, items, item, m), indent + 4)
  {
    RootAlone(base.stack, path);
    assert level.stack[..1] == base.stack[..1] && level.stack == [To([])];
    assert base.stack[..1] + Leftovers(0) + [To(path + [Elem(key, |items|)])] ==
      [To([]), To(path + [Elem(key, |items|)])];
  }

  /** The work of an item line, its text taken apart. */
  lemma ItemLineSteps(level: State, indent: nat, k: string, t: string, pushed: State, stored: State)
    requires GoodKey(k) && Clean(t) && t != "" && PushItem(level) == Ok(pushed) && Assign(pushed, k, Str(t)) ==
             Ok(stored)
    ensures ItemLine(level, indent, Dashed(Body(k, t))) == Ok(stored.(previous := indent))
  {
    ItemLineReads(indent, k, t);
    BodyReads(k, t);
  }

  lemma ItemLineIs(level: State, base: State, path: Path, obj: Obj, indent: nat, key: string, items: seq<Obj>, m: Mark,
                   k: string, t: string)
    requires Ready(base, path, obj, indent) && Between(level, base, path, obj, indent, key, items, m)
    requires GoodKey(k) && Clean(t) && t != ""
    ensures ItemLine(level, indent + 2, Dashed(Body(k, t))) ==
            Ok(InElement(base, path, obj, indent, key, items, map[k := Str(t)], m))
  {
    ItemOpens(level, base, path, obj, indent, key, items, m);
    ItemStores(base, path, obj, indent, key, items, m, level.previous, k, Str(t));
    ItemLineSteps(level, indent + 2, k, t,
                  InElement(base, path, obj, indent, key, items, map[], m).(previous := level.previous),
                  InElement(base, path, obj, indent, key, items, map[k := Str(t)], m).(previous := level.previous));
  }

  lemma {:induction false} ItemStep(st: State, indent: nat, k: string, t: string, st': State, arrayFollows: bool)
    requires GoodKey(k) && Clean(t) && t != ""
    requires ItemLine(Dedent(st, indent + 2), indent + 2, Dashed(Body(k, t))) == Ok(st')
    ensures var line := ItemText(k, t, indent);
            !Skipped(Trim(line)) && Trim(line) == Dashed(Body(k, t)) && Indent(line) == indent + 2 &&
            Step(st, Indent(line), Trim(line), arrayFollows) == Ok(st')
  {
    ItemLineReads(indent + 2, k, t);
  }

  lemma {:induction false} ItemLineTakes(st: State, base: State, path: Path, obj: Obj, indent: nat, key: string,
                                         items: seq<Obj>, m: Mark, k: string, t: string, rest: seq<string>, neat: bool)
    requires Ready(base, path, obj, indent) && Between(Dedent(st, indent + 2), base, path, obj, indent, key, items, m)
    requires GoodKey(k) && Clean(t) && t != "" && (neat ==> NeatItems(base, path, indent, m))
    ensures Takes(st, [ItemText(k, t, indent)], rest,
            InElement(base, path, obj, indent, key, items, map[k := Str(t)], m), neat)
  {
    var level, st' := Dedent(st, indent + 2), InElement(base, path, obj, indent, key, items, map[k := Str(t)], m);
    ItemLineIs(level, base, path, obj, indent, key, items, m, k, t);
    ItemStep(st, indent, k, t, st', NextIsItem(rest));
    if neat { ItemIsNeat(level, base, path, obj, indent, key, items, map[], m, Dashed(Body(k, t))); }
    TakesOne(st, ItemText(k, t, indent), rest, st', neat);
  }

  lemma PastShort(base: State, path: Path, obj: Obj, indent: nat, key: string, items: seq<Obj>, item: Obj, m: Mark)
    requires Ready(base, path, obj, indent) && 1 <= KeptAt(base.stack, indent, m)
    ensures var st := InElement(base, path, obj, indent, key, items, item, m);
            PastItem(st, base, path, obj, indent, key, items + [item], AfterItem(End, indent, m))
  {
    var stack, kept := ItemStack(base.stack, path, indent, key, |items|, m), KeptAt(base.stack, indent, m);
    assert stack[..kept] == base.stack[..kept];
  }

  lemma StackAfterLong(stack: seq<Ptr>, below: seq<Ptr>, path: Path, indent: nat, key: string, n: nat, previous: int,
                       m: Mark, inner: Mark)
    requires 1 <= KeptAt(below, indent, m)
    requires StackOver(stack, ItemStack(below, path, indent, key, n, m), path + [Elem(key, n)], previous, inner)
    ensures var size := ItemSize(m, indent);
            var after := Mark(inner.level, Min(Min(m.low, size), inner.low), Min(size, inner.low));
            StackOver(stack, below, path, previous, after) &&
            forall i :: Min(after.low, |below|) <= i < |stack| && stack[i].To? ==> Into(stack[i].path, path, key)
  {
    var open, size, before := ItemStack(below, path, indent, key, n, m), ItemSize(m, indent), KeptAt(below, indent, m);
    var k := Min(inner.low, |open|);
    var kept := Min(Min(Min(m.low, size), inner.low), |below|);
    assert |open| == size + 1 && kept <= k && kept <= before;
    assert stack[..kept] == stack[..k][..kept] == open[..k][..kept] == open[..kept];
    assert open[..kept] == below[..kept];
    forall i | kept <= i < |stack| && i < k ensures before <= i && stack[i] == open[i] {
      assert stack[i] == stack[..k][i] == open[..k][i];
    }
    forall i | kept <= i < |stack| && stack[i].To? ensures Into(stack[i].path, path, key) {
      if i >= k { assert (path + [Elem(key, n)])[..|path|] == path; }
    }
  }

  lemma PastLong(st: State, base: State, path: Path, obj: Obj, indent: nat, key: string, items: seq<Obj>, first: Obj,
                 item: Obj, m: Mark, inner: Mark)
    requires Ready(base, path, obj, indent) && 1 <= KeptAt(base.stack, indent, m)
    requires var open, path' := InElement(base, path, obj, indent, key, items, first, m), path + [Elem(key, |items|)];
             Past(st, open, path', indent + 4, Store(open.data, path', item), inner)
    ensures var size := ItemSize(m, indent);
            PastItem(st, base, path, obj, indent, key, items + [item],
                     Mark(inner.level, Min(Min(m.low, size), inner.low), Min(size, inner.low)))
  {
    FillingAnElement(base.data, path, obj, key, items, first, item);
    StackAfterLong(st.stack, base.stack, path, indent, key, |items|, st.previous, m, inner);
  }

  lemma ShortTakes(st: State, base: State, path: Path, obj: Obj, indent: nat, key: string, items: seq<Obj>, m: Mark,
                   k: string, t: string, rest: seq<string>)
    requires Ready(base, path, obj, indent) && Between(Dedent(st, indent + 2), base, path, obj, indent, key, items, m)
    requires GoodKey(k) && Clean(t) && t != ""
    ensures Takes(st, ItemLines(k, t, End, indent), rest,
            InElement(base, path, obj, indent, key, items, map[k := Str(t)], m), false)
  {
    ItemLineTakes(st, base, path, obj, indent, key, items, m, k, t, rest, false);
    NothingBefore([ItemText(k, t, indent)]);
  }

  lemma EmptyTakes(st: State, base: State, path: Path, obj: Obj, indent: nat, key: string, rest: seq<string>,
                   neat: bool)
    requires Dedent(st, indent) == base && Ready(base, path, obj, indent) && (neat ==> Neat(base, indent))
    requires GoodKey(key) && !NextIsItem(rest)
    ensures Takes(st, EntryLines(key, Block(End), indent), rest, Opened(base, path, obj, indent, key), neat)
  {
    BlockTakes(st, base, path, obj, indent, key, End, rest, neat);
    NothingBefore([FieldText(key, Block(End), indent)]);
  }

  // ----- Whole fields, maps and arrays -----

  lemma {:induction false} EntriesTake(st: State, base: State, path: Path, obj: Obj, used: set<string>, indent: nat,
                                       entries: Entries, rest: seq<string>, neat: bool)
    returns (st': State)
    requires Dedent(st, indent) == base && Ready(base, path, obj, indent)
    requires entries.Entry? && GoodEntries(used, entries) && obj.Keys == used
    requires FitsEntries(entries, indent, Level(base, indent), NextIsItem(rest))
    requires neat ==> Neat(base, indent) && PlainEntries(entries, indent)
    ensures Takes(st, Lines(entries, indent), rest, st', neat)
    ensures Past(st', base, path, indent, Store(base.data, path, Fields(obj, entries)),
                 AfterEntries(entries, indent, Level(base, indent)))
    decreases entries, 0, 1
  {
    var Entry(key, node, more) := entries;
    EntriesAreNoItems(used + {key}, more, indent, rest);
    var middle := NodeTakes(st, base, path, obj, indent, key, node, Lines(more, indent) + rest, neat);
    if more.End? {
      st' := middle;
      NothingBefore(rest);
      NothingBefore(EntryLines(key, node, indent));
    } else {
      st' := MoreFieldsTake(st, base, path, obj, used, indent, entries, rest, neat, middle);
    }
  }

  /** After the first field, the others. */
  lemma {:induction false} MoreFieldsTake(st: State, base: State, path: Path, obj: Obj, used: set<string>, indent: nat,
                                          entries: Entries, rest: seq<string>, neat: bool, middle: State)
    returns (st': State)
    requires Ready(base, path, obj, indent) && entries.Entry? && entries.rest.Entry?
    requires GoodEntries(used, entries) && obj.Keys == used
    requires neat ==> Neat(base, indent) && PlainEntries(entries, indent)
    requires FitsEntries(entries, indent, Level(base, indent), NextIsItem(rest))
    requires Takes(st, EntryLines(entries.key, entries.node, indent), Lines(entries.rest, indent) + rest, middle, neat)
    requires Past(middle, base, path, indent, Store(base.data, path, obj[entries.key := NodeValue(entries.node)]),
                  AfterNode(entries.node, indent, Level(base, indent)))
    ensures Takes(st, Lines(entries, indent), rest, st', neat)
    ensures Past(st', base, path, indent, Store(base.data, path, Fields(obj, entries)),
                 AfterEntries(entries, indent, Level(base, indent)))
    decreases entries, 0, 0
  {
    var Entry(key, node, more) := entries;
    var obj' := obj[key := NodeValue(node)];
    var base' := ReadyAgain(middle, base, path, obj, obj', indent, AfterNode(node, indent, Level(base, indent)));
    st' := EntriesTake(middle, base', path, obj', used + {key}, indent, more, rest, neat);
    TakesBoth(st, EntryLines(key, node, indent), Lines(more, indent), rest, middle, st', neat);
    StoreTwice(base.data, path, obj', Fields(obj', more));
  }

  lemma {:induction false} NodeTakes(st: State, base: State, path: Path, obj: Obj, indent: nat, key: string, node: Node,
                                     rest: seq<string>, neat: bool)
    returns (st': State)
    requires Dedent(st, indent) == base && Ready(base, path, obj, indent)
    requires key !in obj && GoodKey(key) && GoodNode(node)
    requires FitsNode(node, indent, Level(base, indent), NextIsItem(rest))
    requires neat ==> Neat(base, indent) && PlainNode(node, indent)
    ensures Takes(st, EntryLines(key, node, indent), rest, st', neat)
    ensures Past(st', base, path, indent, Store(base.data, path, obj[key := NodeValue(node)]),
                 AfterNode(node, indent, Level(base, indent)))
    decreases node, 1
  {
    match node
    case Leaf(s) =>
      st' := Stored(base, path, obj, indent, key, ScalarValue(s));
      LeafTakes(st, base, path, obj, indent, key, s, rest, neat);
      StoredIsPast(base, path, obj, indent, key, s);
    case Block(entries) => st' := BlockNodeTakes(st, base, path, obj, indent, key, entries, rest, neat);
    case Array(elements) => st' := ArrayNodeTakes(st, base, path, obj, indent, key, elements, rest, neat);
  }

  lemma {:induction false} BlockNodeTakes(st: State, base: State, path: Path, obj: Obj, indent: nat, key: string,
                                          entries: Entries, rest: seq<string>, neat: bool)
    returns (st': State)
    requires Dedent(st, indent) == base && Ready(base, path, obj, indent)
    requires GoodKey(key) && GoodEntries({}, entries)
    requires FitsNode(Block(entries), indent, Level(base, indent), NextIsItem(rest))
    requires neat ==> Neat(base, indent) && PlainNode(Block(entries), indent)
    ensures Takes(st, EntryLines(key, Block(entries), indent), rest, st', neat)
    ensures Past(st', base, path, indent, Store(base.data, path, obj[key := Map(Fields(map[], entries))]),
                 AfterNode(Block(entries), indent, Level(base, indent)))
    decreases entries, 2
  {
    if entries.End? {
      st' := Opened(base, path, obj, indent, key);
      EmptyTakes(st, base, path, obj, indent, key, rest, neat);
      OpenedIsPast(base, path, obj, indent, key);
    } else {
      EntriesAreNoItems({}, entries, indent + 2, rest);
      BlockTakes(st, base, path, obj, indent, key, entries, Lines(entries, indent + 2) + rest, neat);
      st' := FieldsBelowTake(base, path, obj, indent, key, entries, rest, neat);
      TakesBoth(st, [FieldText(key, Block(entries), indent)], Lines(entries, indent + 2), rest,
                Opened(base, path, obj, indent, key), st', neat);
    }
  }

  lemma {:induction false} FieldsBelowTake(base: State, path: Path, obj: Obj, indent: nat, key: string,
                                           entries: Entries, rest: seq<string>, neat: bool)
    returns (st': State)
    requires Ready(base, path, obj, indent) && entries.Entry? && GoodEntries({}, entries)
    requires FitsEntries(entries, indent + 2, Level(base, indent), NextIsItem(rest))
    requires neat ==> Neat(base, indent) && PlainEntries(entries, indent + 2)
    ensures Takes(Opened(base, path, obj, indent, key), Lines(entries, indent + 2), rest, st', neat)
    ensures Past(st', base, path, indent, Store(base.data, path, obj[key := Map(Fields(map[], entries))]),
                 AfterEntries(entries, indent + 2, Level(base, indent)).(dead := 0))
    decreases entries, 1
  {
    var open := Opened(base, path, obj, indent, key);
    OpenedIsReady(base, path, obj, indent, key);
    st' := EntriesTake(open, open, path + [Field(key)], map[], {}, indent + 2, entries, rest, neat);
    PastInner(st', base, path, obj, indent, key, Fields(map[], entries),
      AfterEntries(entries, indent + 2, Level(base, indent)));
  }

  lemma {:induction false} ArrayNodeTakes(st: State, base: State, path: Path, obj: Obj, indent: nat, key: string,
                                          elements: Elements, rest: seq<string>, neat: bool)
    returns (st': State)
    requires Dedent(st, indent) == base && Ready(base, path, obj, indent)
    requires GoodKey(key) && elements.Item? && GoodElements(elements)
    requires FitsNode(Array(elements), indent, Level(base, indent), NextIsItem(rest))
    requires neat ==> Neat(base, indent) && PlainNode(Array(elements), indent)
    ensures Takes(st, EntryLines(key, Array(elements), indent), rest, st', neat)
    ensures Past(st', base, path, indent, Store(base.data, path, obj[key := Items(ElementObjs([], elements))]),
                 AfterNode(Array(elements), indent, Level(base, indent)))
    decreases elements, 2
  {
    var open, line := Listed(base, path, obj, indent, key), FieldText(key, Array(elements), indent);
    var m := Mark(Level(base, indent) - 1, Level(base, indent) + indent / 2, 0);
    ElementsAreItems(elements, indent, rest);
    ArrayTakes(st, base, path, obj, indent, key, Array(elements), ElementLines(elements, indent) + rest, neat);
    ListedIsReady(base, path, obj, indent, key);
    RootAlone(base.stack, path);
    st' := ElementsTake(open, base, path, obj, indent, key, [], m, elements, rest, neat);
    TakesBoth(st, [line], ElementLines(elements, indent), rest, open, st', neat);
    LeaveArray(st', base, path, obj, indent, key, ElementObjs([], elements), AfterElements(elements, indent, m));
  }

  lemma {:induction false} ItemTakes(st: State, base: State, path: Path, obj: Obj, indent: nat, key: string,
                                     items: seq<Obj>, m: Mark, k: string, t: string, more: Entries, rest: seq<string>,
                                     neat: bool)
    returns (st': State)
    requires Ready(base, path, obj, indent) && Between(Dedent(st, indent + 2), base, path, obj, indent, key, items, m)
    requires GoodKey(k) && Clean(t) && t != "" && GoodEntries({k}, more)
    requires FitsEntries(more, indent + 4, Base(m, indent), NextIsItem(rest))
    requires neat ==> NeatItems(base, path, indent, m) && more.Entry? && PlainEntries(more, 4)
    ensures Takes(st, ItemLines(k, t, more, indent), rest, st', neat)
    ensures PastItem(st', base, path, obj, indent, key, items + [ItemObj(k, t, more)], AfterItem(more, indent, m))
    ensures neat ==> NeatItems(base, path, indent, AfterItem(more, indent, m))
    decreases more, 2
  {
    if more.End? {
      st' := InElement(base, path, obj, indent, key, items, map[k := Str(t)], m);
      ShortTakes(st, base, path, obj, indent, key, items, m, k, t, rest);
      PastShort(base, path, obj, indent, key, items, map[k := Str(t)], m);
    } else {
      st' := LongTakes(st, base, path, obj, indent, key, items, m, k, t, more, rest, neat);
      if neat { PlainEntriesMark(more, 4, Base(m, indent)); }
    }
  }

  lemma {:induction false} LongTakes(st: State, base: State, path: Path, obj: Obj, indent: nat, key: string,
                                     items: seq<Obj>, m: Mark, k: string, t: string, more: Entries, rest: seq<string>,
                                     neat: bool)
    returns (st': State)
    requires Ready(base, path, obj, indent) && Between(Dedent(st, indent + 2), base, path, obj, indent, key, items, m)
    requires GoodKey(k) && Clean(t) && t != "" && GoodEntries({k}, more) && more.Entry?
    requires FitsEntries(more, indent + 4, Base(m, indent), NextIsItem(rest))
    requires neat ==> NeatItems(base, path, indent, m) && PlainEntries(more, 4)
    ensures Takes(st, ItemLines(k, t, more, indent), rest, st', neat)
    ensures PastItem(st', base, path, obj, indent, key, items + [ItemObj(k, t, more)], AfterItem(more, indent, m))
    decreases more, 1
  {
    var first, line, path' := map[k := Str(t)], ItemText(k, t, indent), path + [Elem(key, |items|)];
    var open := InElement(base, path, obj, indent, key, items, first, m);
    ItemLineTakes(st, base, path, obj, indent, key, items, m, k, t, Lines(more, indent + 4) + rest, neat);
    ElementIsReady(base, path, obj, indent, key, items, first, m);
    if neat { ItemIsNeat(Dedent(st, indent + 2), base, path, obj, indent, key, items, first, m, ""); }
    st' := EntriesTake(open, open, path', first, {k}, indent + 4, more, rest, neat);
    TakesBoth(st, [line], Lines(more, indent + 4), rest, open, st', neat);
    PastLong(st', base, path, obj, indent, key, items, first, ItemObj(k, t, more), m,
             AfterEntries(more, indent + 4, Base(m, indent)));
  }

  lemma {:induction false} ElementsTake(st: State, base: State, path: Path, obj: Obj, indent: nat, key: string,
                                        items: seq<Obj>, m: Mark, elements: Elements, rest: seq<string>, neat: bool)
    returns (st': State)
    requires Ready(base, path, obj, indent) && Between(Dedent(st, indent + 2), base, path, obj, indent, key, items, m)
    requires elements.Item? && GoodElements(elements) && FitsElements(elements, indent, m, NextIsItem(rest))
    requires neat ==> NeatItems(base, path, indent, m) && PlainElements(elements)
    ensures Takes(st, ElementLines(elements, indent), rest, st', neat)
    ensures PastItem(st', base, path, obj, indent, key, ElementObjs(items, elements),
            AfterElements(elements, indent, m))
    decreases elements, 0
  {
    var Item(k, t, more, others) := elements;
    ElementsAreItems(others, indent, rest);
    var items', m' := items + [ItemObj(k, t, more)], AfterItem(more, indent, m);
    var middle := ItemTakes(st, base, path, obj, indent, key, items, m, k, t, more,
                            ElementLines(others, indent) + rest, neat);
    if others.Stop? {
      st' := middle;
      NothingBefore(rest);
      NothingBefore(ItemLines(k, t, more, indent));
    } else {
      NextItem(middle, base, path, obj, indent, key, items', m');
      st' := ElementsTake(middle, base, path, obj, indent, key, items', m', others, rest, neat);
      TakesBoth(st, ItemLines(k, t, more, indent), ElementLines(others, indent), rest, middle, st', neat);
    }
  }
}
