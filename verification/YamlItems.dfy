/** Arrays under a key of the root that the printer does not write: replaced while open, or with elements
    that do not begin with a string. */
module YamlItems {
  import opened Prelude
  import opened Text
  import opened Yaml
  import opened YamlCanonical
  import opened YamlFits
  import opened YamlRoundTrip
  import opened YamlReading
  import opened YamlDocument
  import opened YamlLosses

  // ----- The first element -----

  const NO_EXCESS := Mark(0, 1, 0)

  /** The state in the first element of an array of the root. */
  function InFirst(key: string, item: Obj): State {
    State(map[key := Items([item])], [To([]), To([Elem(key, 0)])], [ToArray([], key)], [2], 2)
  }

  lemma {:induction false} SameElement(key: string, item: Obj)
    ensures 1 <= KeptAt(START.stack, 0, NO_EXCESS)
    ensures InElement(START, [], map[], 0, key, [], item, NO_EXCESS) == InFirst(key, item)
  {
    var items: seq<Obj> := [];
    var none: seq<int> := [];
    var nobody: seq<ArrayPtr> := [];
    var root: Path := [];
    var empty: Obj := map[];
    assert items + [item] == [item] && none + [2] == [2] && nobody + [ToArray([], key)] == [ToArray([], key)];
    assert root + [Elem(key, 0)] == [Elem(key, 0)] && empty[key := Items([item])] == map[key := Items([item])];
    assert START.stack[..1] + Leftovers(0) + [To([Elem(key, 0)])] == [To([]), To([Elem(key, 0)])];
  }

  lemma {:induction false} InFirstIs(key: string, item: Obj, indent: nat)
    requires indent % 2 == 0 && indent >= 2
    ensures Ready(InFirst(key, item), [Elem(key, 0)], item, indent)
    ensures Dedent(InFirst(key, item), indent) == InFirst(key, item)
  {
    var st, path := InFirst(key, item), [Elem(key, 0)];
    assert path[1..] == [];
    assert Find(st.data, path) == Find(item, []);
  }

  lemma {:induction false} KeyIsTaken(key: string, rest: seq<string>)
    requires GoodKey(key) && NextIsItem(rest)
    ensures Takes(START, [Body(key, "")], rest, Listed(START, [], map[], 0, key), false)
  {
    StartIsReady();
    ArrayTakes(START, START, [], map[], 0, key, Block(End), rest, false);
    assert Spaces(0) + Body(key, "") == Body(key, "");
  }

  lemma {:induction false} FirstInLine(key: string)
    ensures Ready(START, [], map[], 0)
    ensures Between(Dedent(Listed(START, [], map[], 0, key), 0 + 2), START, [], map[], 0, key, [], NO_EXCESS)
  {
    StartIsReady();
    ListedIsReady(START, [], map[], 0, key);
    assert NO_EXCESS == Mark(Level(START, 0) - 1, Level(START, 0) + 0 / 2, 0);
  }

  // ----- Elements that do not begin with a string -----

  /** A '-' line, and what it makes of an array whose key has just been read. */
  lemma {:induction false} FirstLineOfItem(key: string, line: string, rest: seq<string>, st: State)
    requires GoodKey(key) && Indent(line) == 2 && !Skipped(Trim(line)) && Trim(line)[0] == '-'
    requires ItemLine(Listed(START, [], map[], 0, key), 2, Trim(line)) == Ok(st)
    ensures Takes(START, [Body(key, "")] + [line], rest, st, false)
  {
    var listed := Listed(START, [], map[], 0, key);
    FirstInLine(key);
    assert ([line] + rest)[0] == line;
    KeyIsTaken(key, [line] + rest);
    TakesOne(listed, line, rest, st, false);
    TakesBoth(START, [Body(key, "")], [line], rest, listed, st, false);
  }

  lemma {:induction false} FirstPush(key: string)
    ensures PushItem(Listed(START, [], map[], 0, key)) == Ok(InFirst(key, map[]).(previous := 0))
  {
    FirstInLine(key);
    assert Dedent(Listed(START, [], map[], 0, key), 2) == Listed(START, [], map[], 0, key);
    ItemOpens(Listed(START, [], map[], 0, key), START, [], map[], 0, key, [], NO_EXCESS);
    SameElement(key, map[]);
  }

  lemma {:induction false} BareLineReads()
    ensures Trim("  -") == "-" && Indent("  -") == 2 && Trim("-"[1..]) == ""
  {
    assert Spaces(2) == "  " by { assert Spaces(1) == " "; }
    assert "  -" == Spaces(2) + "-";
    TrimPadded(Spaces(2), "-");
    IndentOf(2, "-");
  }

  lemma {:induction false} BareItemTaken(key: string, rest: seq<string>)
    requires GoodKey(key)
    ensures Takes(START, [Body(key, "")] + ["  -"], rest, InFirst(key, map[]), false)
  {
    BareLineReads();
    FirstPush(key);
    FirstLineOfItem(key, "  -", rest, InFirst(key, map[]));
  }

  /** A bare '-' opens an empty element, for the fields below it. */
  lemma {:induction false} BareItemIsRead(key: string, entries: Entries)
    requires GoodKey(key) && entries.Entry? && GoodEntries({}, entries) && FitsEntries(entries, 4, 0, false)
    ensures Parse([Body(key, "")] + ["  -"] + Lines(entries, 4)) == Ok(map[key := Items([Tree(entries)])])
  {
    var first := InFirst(key, map[]);
    NothingBefore(Lines(entries, 4));
    BareItemTaken(key, Lines(entries, 4));
    TakesMeans(START, [Body(key, "")] + ["  -"], Lines(entries, 4), first, false);
    InFirstIs(key, map[], 4);
    var last := EntriesTake(first, first, [Elem(key, 0)], map[], {}, 4, entries, [], false);
    TakesMeans(first, Lines(entries, 4), [], last, false);
    ElementStored(key, map[], Tree(entries));
  }

  lemma {:induction false} ElementStored(key: string, before: Obj, item: Obj)
    ensures Store(map[key := Items([before])], [Elem(key, 0)], item) == map[key := Items([item])]
  {
    ElemHop(map[], key, [], before, item);
    var none: seq<Obj> := [];
    var empty: Obj := map[];
    assert none + [before] == [before] && none + [item] == [item];
    assert empty[key := Items([before])] == map[key := Items([before])];
    assert empty[key := Items([item])] == map[key := Items([item])];
  }

  lemma {:induction false} BackFromFirst(key: string, item: Obj)
    ensures Dedent(InFirst(key, item), 0) == State(map[key := Items([item])], [To([])], [], [], 0)
    ensures Ready(Dedent(InFirst(key, item), 0), [], map[key := Items([item])], 0)
  {
    var st := InFirst(key, item);
    DedentGives(st, 0, 0);
    assert SizeAt(st, 0) == 1 && st.stack[..1] == [To([])] && st.arrays[..0] == [] && st.indents[..0] == [];
  }

  /** It is left like any other: the next field of the root goes to the root. */
  lemma {:induction false} BareItemIsLeft(key: string, after: string, s: Scalar)
    requires GoodKey(key) && GoodKey(after) && after != key && GoodScalar(s)
    ensures Parse([Body(key, "")] + ["  -"] + [FieldText(after, Leaf(s), 0)]) ==
            Ok(map[key := Items([map[]]), after := ScalarValue(s)])
  {
    var first, last := InFirst(key, map[]), [FieldText(after, Leaf(s), 0)];
    BareItemTaken(key, last);
    TakesMeans(START, [Body(key, "")] + ["  -"], last, first, false);
    BackFromFirst(key, map[]);
    LastFieldRead(first, [], map[key := Items([map[]])], 0, after, s);
  }

  /** A key without a value on the '-' line opens a map for the fields below it. */
  lemma {:induction false} MapItemIsRead(key: string, k: string, entries: Entries)
    requires GoodKey(key) && GoodKey(k)
    requires entries.Entry? && GoodEntries({}, entries) && FitsEntries(entries, 4, 1, false)
    ensures Parse([Body(key, "")] + [ItemText(k, "", 0)] + Lines(entries, 4)) ==
            Ok(map[key := Items([map[k := Map(Tree(entries))]])])
  {
    var open := Opened(InFirst(key, map[]), [Elem(key, 0)], map[], 2, k);
    NothingBefore(Lines(entries, 4));
    MapItemTaken(key, k, Lines(entries, 4));
    TakesMeans(START, [Body(key, "")] + [ItemText(k, "", 0)], Lines(entries, 4), open, false);
    OpenInItem(key, k);
    var last := EntriesTake(open, open, [Elem(key, 0), Field(k)], map[], {}, 4, entries, [], false);
    TakesMeans(open, Lines(entries, 4), [], last, false);
    OpenInItemFilled(key, k, Tree(entries));
  }

  lemma {:induction false} OpenInItem(key: string, k: string)
    ensures var open := Opened(InFirst(key, map[]), [Elem(key, 0)], map[], 2, k);
            Dedent(open, 4) == open && Ready(open, [Elem(key, 0), Field(k)], map[], 4) && Level(open, 4) == 1
  {
    InFirstIs(key, map[], 2);
    OpenedIsReady(InFirst(key, map[]), [Elem(key, 0)], map[], 2, k);
    assert [Elem(key, 0)] + [Field(k)] == [Elem(key, 0), Field(k)];
  }

  lemma {:induction false} OpenInItemFilled(key: string, k: string, inner: Obj)
    ensures var open := Opened(InFirst(key, map[]), [Elem(key, 0)], map[], 2, k);
            Store(open.data, [Elem(key, 0), Field(k)], inner) == map[key := Items([map[k := Map(inner)]])]
  {
    InFirstIs(key, map[], 2);
    FillingABlock(InFirst(key, map[]).data, [Elem(key, 0)], map[], k, map[], inner);
    assert [Elem(key, 0)] + [Field(k)] == [Elem(key, 0), Field(k)];
    ElementStored(key, map[], map[k := Map(inner)]);
    var empty: Obj := map[];
    assert empty[k := Map(inner)] == map[k := Map(inner)];
  }

  lemma {:induction false} MapItemTaken(key: string, k: string, rest: seq<string>)
    requires GoodKey(key) && GoodKey(k)
    ensures Takes(START, [Body(key, "")] + [ItemText(k, "", 0)], rest,
                  Opened(InFirst(key, map[]), [Elem(key, 0)], map[], 2, k), false)
  {
    var line, body := ItemText(k, "", 0), Dashed(Body(k, ""));
    ItemLineReads(2, k, "");
    BodyReads(k, "");
    MapItemLine(key, k);
    FirstLineOfItem(key, line, rest, Opened(InFirst(key, map[]), [Elem(key, 0)], map[], 2, k));
  }

  lemma {:induction false} MapItemLine(key: string, k: string)
    requires GoodKey(key) && GoodKey(k)
    ensures ItemLine(Listed(START, [], map[], 0, key), 2, Dashed(Body(k, ""))) ==
            Ok(Opened(InFirst(key, map[]), [Elem(key, 0)], map[], 2, k))
  {
    var pushed := InFirst(key, map[]).(previous := 0);
    ItemLineReads(2, k, "");
    BodyReads(k, "");
    FirstPush(key);
    FirstIsAssigned(key, k);
    ItemLineOpens(Listed(START, [], map[], 0, key), Dashed(Body(k, "")), k, pushed);
  }

  lemma {:induction false} FirstIsAssigned(key: string, k: string)
    ensures Assign(InFirst(key, map[]).(previous := 0), k, Map(map[])) ==
            Ok(InFirst(key, map[]).(data := Store(InFirst(key, map[]).data, [Elem(key, 0)], map[k := Map(map[])]),
                                    previous := 0))
  {
    InFirstIs(key, map[], 2);
    AssignFresh(InFirst(key, map[]), [Elem(key, 0)], map[], 2, k, Map(map[]));
    AssignElsewhen(InFirst(key, map[]), k, Map(map[]), 0);
    var empty: Obj := map[];
    assert empty[k := Map(map[])] == map[k := Map(map[])];
  }

  /** An item line whose text is a key without a value. */
  lemma ItemLineOpens(level: State, body: string, k: string, pushed: State)
    requires body != "" && PushItem(level) == Ok(pushed) && Assign(pushed, k, Map(map[])).Ok?
    requires var item := Trim(body[1..]);
             item != "" && IndexOf(item, ':') < |item| && Key(item) == k && After(item) == ""
    ensures ItemLine(level, 2, body) ==
            Ok(PushField(Assign(pushed, k, Map(map[])).value, k).(previous := 2))
  {
  }

  /** Where the last line was indented does not matter for an assignment. */
  lemma AssignElsewhen(st: State, key: string, value: Value, previous: int)
    requires Assign(st, key, value).Ok?
    ensures Assign(st.(previous := previous), key, value) == Ok(Assign(st, key, value).value.(previous := previous))
  {
  }

  // ----- An array that is replaced while it is open -----

  lemma {:induction false} FirstItemTaken(key: string, k: string, t: string, rest: seq<string>)
    requires GoodKey(key) && GoodKey(k) && Clean(t) && t != ""
    ensures Takes(START, [Body(key, "")] + [ItemText(k, t, 0)], rest, InFirst(key, map[k := Str(t)]), false)
  {
    var listed := Listed(START, [], map[], 0, key);
    ItemIsItem(k, t, 0, rest);
    KeyIsTaken(key, [ItemText(k, t, 0)] + rest);
    ItemIsTaken(key, k, t, rest);
    TakesBoth(START, [Body(key, "")], [ItemText(k, t, 0)], rest, listed, InFirst(key, map[k := Str(t)]), false);
  }

  lemma {:induction false} ItemIsTaken(key: string, k: string, t: string, rest: seq<string>)
    requires GoodKey(key) && GoodKey(k) && Clean(t) && t != ""
    ensures Takes(Listed(START, [], map[], 0, key), [ItemText(k, t, 0)], rest, InFirst(key, map[k := Str(t)]), false)
  {
    SameElement(key, map[k := Str(t)]);
    FirstInLine(key);
    ItemLineTakes(Listed(START, [], map[], 0, key), START, [], map[], 0, key, [], NO_EXCESS, k, t, rest, false);
  }

  lemma {:induction false} DeepFieldTaken(st: State, key: string, k: string, t: string, deep: string, s: Scalar,
                                          rest: seq<string>)
    returns (st': State)
    requires st == InFirst(key, map[k := Str(t)]) && GoodKey(deep) && deep != k && GoodScalar(s)
    ensures Takes(st, [FieldText(deep, Leaf(s), 6)], rest, st', false)
    ensures st' == st.(data := st'.data, previous := 6) && st'.data.Keys == {key}
  {
    InFirstIs(key, map[k := Str(t)], 6);
    LeafTakes(st, st, [Elem(key, 0)], map[k := Str(t)], 6, deep, s, rest, false);
    EntryLinesOfLeaf(deep, s, 6);
    st' := Stored(st, [Elem(key, 0)], map[k := Str(t)], 6, deep, ScalarValue(s));
  }

  /** Two levels are left, but the array stays open; its key gets an inline array. */
  lemma {:induction false} ArrayIsReplaced(st: State, key: string, elems: seq<string>, rest: seq<string>)
    returns (st': State)
    requires st.stack == [To([]), To([Elem(key, 0)])] && st.arrays == [ToArray([], key)] && st.indents == [2]
    requires st.previous == 6 && GoodKey(key) && GoodElems(elems)
    ensures Takes(st, [FieldText(key, Leaf(Inline(elems)), 2)], rest, st', false)
    ensures st'.arrays == [DanglingArray] && st'.previous == 2
  {
    var base, text := State(st.data, [To([])], [ToArray([], key)], [2], 2), Show(Inline(elems));
    ScalarRoundTrip(Inline(elems));
    DedentGives(st, 2, 1);
    assert st.stack[..1] == [To([])] && st.arrays[..1] == st.arrays && st.indents[..1] == st.indents;
    FieldLineReads(2, key, text);
    BodyReads(key, text);
    st' := ReplacingLine(base, key, elems, NextIsItem(rest));
    TakesOne(st, FieldText(key, Leaf(Inline(elems)), 2), rest, st', false);
  }

  lemma {:induction false} ArrayIsGone(base: State, key: string, value: Value)
    requires base.stack == [To([])] && base.arrays == [ToArray([], key)]
    ensures Assign(base, key, value).Ok? && Assign(base, key, value).value.arrays == [DanglingArray]
  {
    assert Top(base) == Some(base.data);
    assert Invalidate(base, [], key).arrays == [DanglingArray];
  }

  lemma {:induction false} ReplacingLine(base: State, key: string, elems: seq<string>, arrayFollows: bool)
    returns (st: State)
    requires base.stack == [To([])] && base.arrays == [ToArray([], key)] && GoodKey(key) && GoodElems(elems)
    ensures FieldLine(base, 2, Body(key, Show(Inline(elems))), arrayFollows) == Ok(st)
    ensures st.arrays == [DanglingArray] && st.previous == 2
  {
    var text := Show(Inline(elems));
    ScalarRoundTrip(Inline(elems));
    BodyReads(key, text);
    var list := List(ListElements(text[1..|text| - 1]));
    ArrayIsGone(base, key, list);
    InlineLine(base, Body(key, text), text, key, arrayFollows);
    st := Assign(base, key, list).value.(previous := 2);
  }

  /** A field line with an inline array. */
  lemma InlineLine(base: State, body: string, text: string, key: string, arrayFollows: bool)
    requires IndexOf(body, ':') < |body| && Key(body) == key && After(body) == text && IsBracketed(text)
    requires Assign(base, key, List(ListElements(text[1..|text| - 1]))).Ok?
    ensures FieldLine(base, 2, body, arrayFollows) ==
            Ok(Assign(base, key, List(ListElements(text[1..|text| - 1]))).value.(previous := 2))
  {
  }

  lemma {:induction false} ItemOfReplacedArray(st: State, k: string, t: string, rest: seq<string>)
    requires st.arrays == [DanglingArray] && st.previous == 2 && GoodKey(k) && Clean(t)
    ensures ParseFrom(st, [ItemText(k, t, 0)] + rest) == Err(UndefinedBehaviour)
  {
    var line := ItemText(k, t, 0);
    ItemLineReads(2, k, t);
    assert ([line] + rest)[0] == line && ([line] + rest)[1..] == rest;
    assert Step(st, 2, Trim(line), NextIsItem(rest)) == Err(UndefinedBehaviour);
  }

  /** An array that is replaced while it is open, after an indentation that leaves its element, is written
      to through a dangling pointer by the next item. */
  lemma {:induction false} ReplacedArrayDangles(key: string, k: string, t: string, deep: string, s: Scalar,
                                                elems: seq<string>, k': string, t': string, rest: seq<string>)
    requires GoodKey(key) && GoodKey(k) && Clean(t) && t != "" && GoodKey(deep) && deep != k && GoodScalar(s)
    requires GoodElems(elems) && GoodKey(k') && Clean(t')
    ensures var lines := [Body(key, "")] + [ItemText(k, t, 0)] + [FieldText(deep, Leaf(s), 6)] +
                         [FieldText(key, Leaf(Inline(elems)), 2)];
            Parse(lines + ([ItemText(k', t', 0)] + rest)) == Err(UndefinedBehaviour)
  {
    var last := [ItemText(k', t', 0)] + rest;
    var two, third := [Body(key, "")] + [ItemText(k, t, 0)], [FieldText(deep, Leaf(s), 6)];
    var fourth := [FieldText(key, Leaf(Inline(elems)), 2)];
    var inside := InFirst(key, map[k := Str(t)]);
    FirstItemTaken(key, k, t, third + (fourth + last));
    var st := DeepFieldTaken(inside, key, k, t, deep, s, fourth + last);
    TakesBoth(START, two, third, fourth + last, inside, st, false);
    var st' := ArrayIsReplaced(st, key, elems, last);
    TakesBoth(START, two + third, fourth, last, st, st', false);
    TakesMeans(START, two + third + fourth, last, st', false);
    ItemOfReplacedArray(st', k', t', rest);
  }
}
