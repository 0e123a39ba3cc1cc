/** Where the count is wrong, a field is misplaced for good: the tree read is not the one printed. */
module YamlMisplaced {
  import opened Prelude
  import opened Yaml
  import opened YamlCanonical
  import opened YamlFits
  import opened YamlRoundTrip
  import opened YamlReading
  import opened YamlWrites
  import opened YamlSlots

  // ----- The first wrong line -----

  /** The slots that the remaining lines are for: in `target`, not yet in `data`, and each in a map
      that is open (`path` or one around it) or in one of these slots. */
  ghost predicate Missing(data: Obj, target: Obj, path: Path, slots: set<Path>) {
    forall q :: q in slots ==> q != [] && Has(target, q) && !Has(data, q) && (Parent(q) <= path || Parent(q) in slots)
  }

  /** The top of the stack is not the map at `path`: it is gone, or inside that map; or that map is
      not on the stack any more. */
  ghost predicate Misses(stack: seq<Ptr>, path: Path) {
    |stack| > 0 &&
    var top := stack[|stack| - 1];
    top.Dangling? || path < top.path || (path != [] && To(path) !in stack)
  }

  /** If everything missing has been written, with no slot to spare, each slot has been written once. */
  lemma {:induction false} NothingToSpare(st: State, lines: seq<string>, target: Obj, path: Path, slots: set<Path>)
    requires Missing(st.data, target, path, slots) && |slots| >= Budget(lines)
    requires ParseFrom(st, lines) == Ok(target)
    ensures Writes(st, lines) == slots
  {
    ParseWrites(st, lines);
    WithinBudget(st, lines);
    forall q: Path | q in slots ensures q in Writes(st, lines) {
      assert q !in Writes(st, lines) ==> Same(target, st.data, q);
    }
    SubsetOfSameSize(slots, Writes(st, lines));
  }

  lemma {:induction false} SubsetOfSameSize<T>(a: set<T>, b: set<T>)
    requires a <= b && |b| <= |a|
    ensures a == b
  {
    SizeOfUnion(a, b - a);
    assert a + (b - a) == b;
    assert b - a != {} ==> |b - a| > 0;
  }

  lemma {:induction false} FoundIsHad(root: Obj, path: Path)
    requires path != [] && Find(root, path).Some?
    ensures Has(root, path)
  {
    var owner, hop := Parent(path), path[|path| - 1];
    assert path == owner + [hop];
    FindUnder(root, owner, [hop]);
    assert [hop][1..] == [];
  }

  lemma {:induction false} ParseOne(st: State, line: string, rest: seq<string>)
    requires !Skipped(Trim(line))
    ensures var step := Step(st, Indent(line), Trim(line), NextIsItem(rest));
            ParseFrom(st, [line] + rest) == match step case Err(e) => Err(e) case Ok(st') => ParseFrom(st', rest)
    ensures var step := Step(st, Indent(line), Trim(line), NextIsItem(rest));
            Writes(st, [line] + rest) == LineWrites(Dedent(st, Indent(line)), Trim(line)) +
                                         match step case Err(_) => {} case Ok(st') => Writes(st', rest)
    ensures Budget([line] + rest) == LineBudget(Trim(line)) + Budget(rest)
  {
    assert ([line] + rest)[0] == line && ([line] + rest)[1..] == rest;
  }

  /** A field line has been read through the pointer `top`, and with the later lines just `slots` have
      been written. */
  ghost predicate ThroughTop(data: Obj, stack: seq<Ptr>, path: Path, key: string, slots: set<Path>, top: Path,
                             later: set<Path>) {
    stack != [] && stack[|stack| - 1] == To(top) && Find(data, top).Some? && slots == {top + [Field(key)]} + later &&
    (path + [Field(key)] in later ==> To(path) in stack || path in slots)
  }

  lemma ParentOf(path: Path, hop: Hop)
    ensures Parent(path + [hop]) == path
  {
  }

  lemma {:induction false} LaterThroughTop(data: Obj, stack: seq<Ptr>, st: State, rest: seq<string>, path: Path,
                                           key: string, top: Path)
    requires stack != [] && stack[|stack| - 1] == To(top) && Find(data, top).Some?
    requires OnlyPushes(stack, st.stack, {top + [Field(key)]})
    ensures ThroughTop(data, stack, path, key, {top + [Field(key)]} + Writes(st, rest), top, Writes(st, rest))
  {
    var slot := path + [Field(key)];
    ParentOf(path, Field(key));
    if slot in Writes(st, rest) { WrittenThroughStack(st, rest, slot); }
  }

  ghost predicate SomehowThroughTop(data: Obj, stack: seq<Ptr>, path: Path, key: string, slots: set<Path>) {
    exists top, later :: ThroughTop(data, stack, path, key, slots, top, later)
  }

  lemma {:induction false} ReadThroughTop(st: State, line: string, rest: seq<string>, path: Path, key: string,
                                          target: Obj)
    requires !Skipped(Trim(line)) && Trim(line)[0] != '-' && Key(Trim(line)) == key
    requires ParseFrom(st, [line] + rest) == Ok(target)
    ensures SomehowThroughTop(st.data, Dedent(st, Indent(line)).stack, path, key, Writes(st, [line] + rest))
  {
    var top, st' := LineThroughTop(st, line, rest, key, target);
    LaterThroughTop(st.data, Dedent(st, Indent(line)).stack, st', rest, path, key, top);
  }

  /** With another map on top in place of `path`, the slots written cannot be just those that are missing. */
  lemma {:induction false} NotMadeUpFor(data: Obj, target: Obj, stack: seq<Ptr>, path: Path, key: string,
                                        slots: set<Path>)
    requires Missing(data, target, path, slots) && path + [Field(key)] in slots && (path != [] ==> Has(data, path))
    requires Misses(stack, path)
    ensures !SomehowThroughTop(data, stack, path, key, slots)
  {
    forall top, later ensures !ThroughTop(data, stack, path, key, slots, top, later) {
      ParentOf(path, Field(key));
      ParentOf(top, Field(key));
      if path < top && Find(data, top).Some? { FoundIsHad(data, top); }
    }
  }

  /** A field line that does not find its own map on top is never made up for. Inside that map all
      lines have been read, so the slot written is none of those missing; and once the map is off the
      stack, only writing its own slot again would bring it back. */
  lemma {:induction false} Misplaced(st: State, line: string, rest: seq<string>, path: Path, key: string, target: Obj,
                                     slots: set<Path>)
    requires !Skipped(Trim(line)) && Trim(line)[0] != '-' && Key(Trim(line)) == key
    requires Misses(Dedent(st, Indent(line)).stack, path) && (path != [] ==> Has(st.data, path))
    requires Missing(st.data, target, path, slots) && |slots| >= Budget([line] + rest) && path + [Field(key)] in slots
    ensures ParseFrom(st, [line] + rest) != Ok(target)
  {
    NotMadeUpFor(st.data, target, Dedent(st, Indent(line)).stack, path, key, slots);
    if ParseFrom(st, [line] + rest) == Ok(target) {
      NothingToSpare(st, [line] + rest, target, path, slots);
      ReadThroughTop(st, line, rest, path, key, target);
    }
  }

  /** A field line that is read writes its slot through the top of the stack. */
  lemma {:induction false} LineThroughTop(st: State, line: string, rest: seq<string>, key: string, target: Obj)
    returns (top: Path, st': State)
    requires !Skipped(Trim(line)) && Trim(line)[0] != '-' && Key(Trim(line)) == key
    requires ParseFrom(st, [line] + rest) == Ok(target)
    ensures var stack := Dedent(st, Indent(line)).stack;
            stack != [] && stack[|stack| - 1] == To(top) && Find(st.data, top).Some? &&
            OnlyPushes(stack, st'.stack, {top + [Field(key)]})
    ensures Writes(st, [line] + rest) == {top + [Field(key)]} + Writes(st', rest)
  {
    var level, body := Dedent(st, Indent(line)), Trim(line);
    ParseOne(st, line, rest);
    st' := Step(st, Indent(line), body, NextIsItem(rest)).value;
    StepWrites(st, Indent(line), body, NextIsItem(rest), st');
    DedentKeepsData(st, Indent(line));
    TopIsFound(level, Indent(line), body, NextIsItem(rest));
    top := level.stack[|level.stack| - 1].path;
  }

  lemma {:induction false} TopIsFound(level: State, indent: nat, body: string, arrayFollows: bool)
    requires body != "" && FieldLine(level, indent, body, arrayFollows).Ok?
    ensures level.stack != [] && level.stack[|level.stack| - 1].To? &&
            Find(level.data, level.stack[|level.stack| - 1].path).Some?
  {
  }

  ghost predicate Differs(st: State, lines: seq<string>, target: Obj) {
    ParseFrom(st, lines) != Ok(target)
  }

  /** Reading `lines` does not end in the tree `target`. (Quantified for the same reason as `Takes`.) */
  ghost predicate Fails(st: State, lines: seq<string>, target: Obj) {
    forall all :: all == lines ==> Differs(st, all, target)
  }

  lemma {:induction false} FailsLater(st: State, xs: seq<string>, rest: seq<string>, middle: State, target: Obj)
    requires Takes(st, xs, rest, middle, false) && Fails(middle, rest, target)
    ensures Fails(st, xs + rest, target)
  {
    TakesMeans(st, xs, rest, middle, false);
    assert Differs(middle, rest, target);
  }

  // ----- An empty map taken for an array -----

  /** Where a map belongs an array is stored, and no later line is there to put it right. */
  lemma {:induction false} Mistaken(st: State, rest: seq<string>, path: Path, target: Obj, slots: set<Path>, slot: Path)
    requires Missing(st.data, target, path, slots) && |slots| >= Budget(rest)
    requires slot !in slots && Has(target, slot) && IsArray(st.data, slot) && !IsArray(target, slot)
    ensures ParseFrom(st, rest) != Ok(target)
  {
    if ParseFrom(st, rest) == Ok(target) {
      NothingToSpare(st, rest, target, path, slots);
      KindStays(st, rest, target, slot);
    }
  }

  lemma {:induction false} KindStays(st: State, rest: seq<string>, target: Obj, slot: Path)
    requires ParseFrom(st, rest) == Ok(target) && Has(target, slot) && slot !in Writes(st, rest)
    ensures IsArray(target, slot) == IsArray(st.data, slot)
  {
    ParseWrites(st, rest);
    assert Same(target, st.data, slot);
  }

  // ----- What later lines are for -----

  /** The slots that `rest`, the lines after a field, are for: none of them is of that field. */
  ghost predicate Later(data: Obj, target: Obj, path: Path, key: string, slots: set<Path>, rest: seq<string>) {
    Missing(data, target, path, slots) && |slots| >= Budget(rest) && forall q :: q in slots ==> !Into(q, path, key)
  }

  /** The slots of the lines after a map: none of them is in that map. */
  ghost predicate LaterStill(data: Obj, target: Obj, path: Path, slots: set<Path>, rest: seq<string>) {
    Missing(data, target, path, slots) && |slots| >= Budget(rest) && forall q :: q in slots ==> !(path < q)
  }

  lemma {:induction false} NotYetThere(data: Obj, path: Path, obj: Obj, key: string, q: Path)
    requires Find(data, path) == Some(obj) && key !in obj && Into(q, path, key)
    ensures !Has(data, q)
  {
    var below := q[|path|..];
    assert q == path + below && below[0] == q[|path|];
    SlotUnder(data, path, below);
    if |below| == 1 {
      assert Parent(below) == [];
    } else {
      assert below == below[..1] + below[1..];
      SlotUnder(obj, below[..1], below[1..]);
    }
  }

  /** Storing a field leaves the later slots missing. */
  lemma {:induction false} StillMissing(data: Obj, target: Obj, path: Path, obj: Obj, key: string, value: Value,
                                        slots: set<Path>)
    requires Find(data, path) == Some(obj) && Missing(data, target, path, slots)
    requires forall q :: q in slots ==> !Into(q, path, key)
    ensures Missing(Store(data, path, obj[key := value]), target, path, slots)
  {
    forall q: Path | q in slots ensures !Has(Store(data, path, obj[key := value]), q) {
      ElsewhereSame(data, path, obj, key, value, q);
    }
  }

  lemma {:induction false} ElsewhereSame(data: Obj, path: Path, obj: Obj, key: string, value: Value, q: Path)
    requires Find(data, path) == Some(obj) && !Into(q, path, key)
    ensures Has(Store(data, path, obj[key := value]), q) == Has(data, q)
  {
    var data' := Store(data, path, obj[key := value]);
    if path < q {
      var below := q[|path|..];
      assert q == path + below && below[0] == q[|path|] && q[..|path|] == path;
      FindStored(data, path, obj[key := value]);
      SlotUnder(data, path, below);
      SlotUnder(data', path, below);
      OtherKey(obj, key, value, below);
    } else {
      SlotElsewhere(data, path, obj[key := value], q);
    }
  }

  lemma {:induction false} FieldStillMissing(data: Obj, target: Obj, path: Path, obj: Obj, used: set<string>,
                                             entries: Entries, q: Path)
    requires Find(data, path) == Some(obj) && obj.Keys == used && GoodEntries(used, entries)
    requires Find(target, path) == Some(Fields(obj, entries)) && q in EntriesSlots(path, entries)
    ensures Within(q, path, EntriesSlots(path, entries)) && q[|path|].key in Keys(entries)
    ensures !Has(data, q) && Has(target, q)
  {
    KeysAreNew(used, entries);
    EntriesSlotsWithin(path, entries, q);
    assert Into(q, path, q[|path|].key);
    NotYetThere(data, path, obj, q[|path|].key, q);
    EntriesAreThere(target, path, obj, used, entries, q);
  }

  /** The slots of some fields that are next, and those of what follows their map. */
  lemma {:induction false} TheseFields(data: Obj, target: Obj, path: Path, obj: Obj, used: set<string>, indent: nat,
                                       entries: Entries, rest: seq<string>, slots: set<Path>)
    requires Find(data, path) == Some(obj) && obj.Keys == used && GoodEntries(used, entries)
    requires Find(target, path) == Some(Fields(obj, entries)) && LaterStill(data, target, path, slots, rest)
    ensures var all := EntriesSlots(path, entries) + slots;
            Missing(data, target, path, all) && |all| >= Budget(Lines(entries, indent) + rest)
  {
    var mine := EntriesSlots(path, entries);
    forall q: Path | q in mine
      ensures q != [] && Has(target, q) && !Has(data, q) && (Parent(q) <= path || Parent(q) in mine) && q !in slots
    {
      FieldStillMissing(data, target, path, obj, used, entries, q);
    }
    EntriesCount(path, used, entries, indent);
    BudgetOfBoth(Lines(entries, indent), rest);
    SizeOfUnion(mine, slots);
  }

  lemma {:induction false} OtherFieldsApart(path: Path, used: set<string>, entries: Entries, q: Path)
    requires entries.Entry? && GoodEntries(used, entries) && q in EntriesSlots(path, entries.rest)
    ensures !Into(q, path, entries.key)
  {
    KeysAreNew(used + {entries.key}, entries.rest);
    EntriesSlotsWithin(path, entries.rest, q);
  }

  /** Seen from the first of some fields: the slots of the others, and those of what follows the map. */
  lemma {:induction false} LaterFields(data: Obj, target: Obj, path: Path, obj: Obj, used: set<string>, indent: nat,
                                       entries: Entries, rest: seq<string>, slots: set<Path>)
    requires Find(data, path) == Some(obj) && obj.Keys == used && entries.Entry? && GoodEntries(used, entries)
    requires Find(target, path) == Some(Fields(obj, entries)) && LaterStill(data, target, path, slots, rest)
    ensures Later(data, target, path, entries.key, EntriesSlots(path, entries.rest) + slots,
            Lines(entries.rest, indent) + rest)
  {
    var mine := EntriesSlots(path, entries.rest);
    forall q: Path | q in mine ensures OneOfLater(data, target, path, entries.key, mine, q) && q !in slots {
      LaterField(data, target, path, obj, used, entries, q);
    }
    EntriesCount(path, used + {entries.key}, entries.rest, indent);
    BudgetOfBoth(Lines(entries.rest, indent), rest);
    SizeOfUnion(mine, slots);
  }

  ghost predicate OneOfLater(data: Obj, target: Obj, path: Path, key: string, mine: set<Path>, q: Path) {
    q != [] && Has(target, q) && !Has(data, q) && (Parent(q) <= path || Parent(q) in mine) && !Into(q, path, key) &&
    path < q
  }

  lemma {:induction false} LaterField(data: Obj, target: Obj, path: Path, obj: Obj, used: set<string>, entries: Entries,
                                      q: Path)
    requires Find(data, path) == Some(obj) && obj.Keys == used && entries.Entry? && GoodEntries(used, entries)
    requires Find(target, path) == Some(Fields(obj, entries)) && q in EntriesSlots(path, entries.rest)
    ensures OneOfLater(data, target, path, entries.key, EntriesSlots(path, entries.rest), q)
  {
    FieldStillMissing(data, target, path, obj, used, entries, q);
    EntriesSlotsWithin(path, entries.rest, q);
    OtherFieldsApart(path, used, entries, q);
  }

  lemma {:induction false} UnderHop(path: Path, hop: Hop, q: Path)
    ensures path + [hop] < q ==> path < q && q[|path|] == hop && Into(q, path, hop.key)
  {
    if path + [hop] < q {
      assert q[|path|] == (path + [hop])[|path|] && q[..|path|] == (path + [hop])[..|path|];
    }
  }

  lemma {:induction false} ElementStillMissing(data: Obj, target: Obj, path: Path, obj: Obj, tree: Obj, key: string,
                                               items: seq<Obj>, item: Obj, elements: Elements, q: Path)
    requires Find(data, path) == Some(obj) && key in obj && obj[key] == Items(items + [item])
    requires elements.Item? && GoodElements(elements) && q in ElementsSlots(path, key, |items| + 1, elements.rest)
    requires Find(target, path) == Some(tree) && key in tree && tree[key] == Items(ElementObjs(items, elements))
    ensures Within(q, path, ElementsSlots(path, key, |items| + 1, elements.rest)) && q != []
    ensures !(path + [Elem(key, |items|)] < q) && !Has(data, q) && Has(target, q)
  {
    var next := items + [ItemObj(elements.key, elements.text, elements.more)];
    ElementsSlotsWithin(path, key, |items| + 1, elements.rest, q);
    UnderHop(path, Elem(key, |items|), q);
    NoSuchElement(data, path, obj, key, items + [item], q);
    ElementsAreThere(target, path, tree, key, next, elements.rest, q);
  }

  lemma {:induction false} FurtherOut(data: Obj, target: Obj, path: Path, hop: Hop, slots: set<Path>, rest: seq<string>)
    requires Later(data, target, path, hop.key, slots, rest)
    ensures LaterStill(data, target, path + [hop], slots, rest)
  {
    var slot := path + [hop];
    forall q: Path | q in slots ensures !(slot < q) && (Parent(q) <= slot || Parent(q) in slots) {
      UnderHop(path, hop, q);
      assert path <= slot;
    }
  }

  lemma {:induction false} TwoGroups(data: Obj, target: Obj, path: Path, mine: set<Path>, slots: set<Path>,
                                     lines: seq<string>, rest: seq<string>)
    requires LaterStill(data, target, path, mine, lines) && LaterStill(data, target, path, slots, rest) && mine !! slots
    ensures LaterStill(data, target, path, mine + slots, lines + rest)
  {
    BudgetOfBoth(lines, rest);
    SizeOfUnion(mine, slots);
  }

  /** Seen from an element: the slots of the later elements, and those of what follows the array. */
  lemma {:induction false} LaterElements(data: Obj, target: Obj, path: Path, obj: Obj, tree: Obj, key: string,
                                         items: seq<Obj>, item: Obj, indent: nat, elements: Elements, rest: seq<string>,
                                         slots: set<Path>)
    requires Find(data, path) == Some(obj) && key in obj && obj[key] == Items(items + [item])
    requires elements.Item? && GoodElements(elements)
    requires Find(target, path) == Some(tree) && key in tree && tree[key] == Items(ElementObjs(items, elements))
    requires Later(data, target, path, key, slots, rest)
    ensures var others := ElementsSlots(path, key, |items| + 1, elements.rest) + slots;
            LaterStill(data, target, path + [Elem(key, |items|)], others, ElementLines(elements.rest, indent) + rest)
  {
    var slot, mine := path + [Elem(key, |items|)], ElementsSlots(path, key, |items| + 1, elements.rest);
    assert path <= slot;
    forall q: Path | q in mine
      ensures q != [] && Has(target, q) && !Has(data, q) && (Parent(q) <= slot || Parent(q) in mine) && !(slot < q) &&
              q !in slots
    {
      ElementStillMissing(data, target, path, obj, tree, key, items, item, elements, q);
      ElementsSlotsWithin(path, key, |items| + 1, elements.rest, q);
    }
    ElementsCount(path, key, |items| + 1, elements.rest, indent);
    FurtherOut(data, target, path, Elem(key, |items|), slots, rest);
    TwoGroups(data, target, slot, mine, slots, ElementLines(elements.rest, indent), rest);
  }

  lemma {:induction false} NoSuchElement(data: Obj, path: Path, obj: Obj, key: string, items: seq<Obj>, q: Path)
    requires Find(data, path) == Some(obj) && key in obj && obj[key] == Items(items)
    requires Into(q, path, key) && q[|path|].Elem? && q[|path|].i >= |items|
    ensures !Has(data, q)
  {
    var below := q[|path|..];
    assert q == path + below && below[0] == q[|path|];
    SlotUnder(data, path, below);
    if |below| == 1 {
      assert Parent(below) == [];
    } else {
      assert below == below[..1] + below[1..] && below[..1][0] == below[0];
      SlotUnder(obj, below[..1], below[1..]);
    }
  }

  // ----- Where the count goes wrong -----

  /** The count being wrong, the next field of the map does not find it on top. */
  lemma CountIsWrong(st: State, base: State, path: Path, obj: Obj, indent: nat, data: Obj, m: Mark)
    requires Ready(base, path, obj, indent) && Past(st, base, path, indent, data, m)
    requires !Steady(m, indent, Level(base, indent))
    ensures Misses(Dedent(st, indent).stack, path)
  {
    var stack := Dedent(st, indent).stack;
    BackAt(st, base, path, obj, indent, data, m);
    RootAlone(base.stack, path);
    WrongStack(st.stack, stack, base.stack, path, st.previous, m);
  }

  lemma WrongStack(whole: seq<Ptr>, stack: seq<Ptr>, below: seq<Ptr>, path: Path, previous: int, m: Mark)
    requires ReadyStack(below, path) && StackOver(whole, below, path, previous, m)
    requires 1 <= |stack| <= |whole| && stack == whole[..|stack|]
    requires if path == [] then |below| == 1 && |stack| > 1 else |stack| != |below| || m.low < |below|
    ensures Misses(stack, path)
  {
    var kept, top := Min(m.low, |below|), |stack| - 1;
    if kept <= top && stack[top] != To(path) {
      assert stack[top] == whole[top];
    }
    if path != [] && (|stack| < |below| || m.low < |below|) {
      forall i | 0 <= i < |stack| ensures stack[i] != To(path) {
        if i < kept { assert stack[i] == whole[..kept][i] == below[..kept][i] == below[i]; }
          else { assert stack[i] == whole[i]; }
      }
    }
  }

  lemma {:induction false} FieldMisplaced(st: State, base: State, path: Path, obj: Obj, obj': Obj, used: set<string>,
                                          indent: nat, m: Mark, entries: Entries, rest: seq<string>, target: Obj,
                                          slots: set<Path>)
    requires Ready(base, path, obj, indent) && Past(st, base, path, indent, Store(base.data, path, obj'), m)
    requires !Steady(m, indent, Level(base, indent))
    requires obj'.Keys == used && entries.Entry? && GoodEntries(used, entries)
    requires Find(target, path) == Some(Fields(obj', entries)) && LaterStill(st.data, target, path, slots, rest)
    ensures Fails(st, Lines(entries, indent) + rest, target)
  {
    var Entry(key, node, more) := entries;
    var line := FieldText(key, node, indent);
    var below := FirstLine(entries, indent, rest);
    WrittenIsClean(node);
    FieldLineReads(indent, key, Written(node));
    BodyReads(key, Written(node));
    CountIsWrong(st, base, path, obj, indent, st.data, m);
    FindStored(base.data, path, obj');
    if path != [] { FoundIsHad(st.data, path); }
    TheseFields(st.data, target, path, obj', used, indent, entries, rest, slots);
    Misplaced(st, line, below, path, key, target, EntriesSlots(path, entries) + slots);
    assert Differs(st, [line] + below, target);
  }

  // ----- Maps and arrays where the count goes wrong inside -----

  lemma {:induction false} EntriesFail(st: State, base: State, path: Path, obj: Obj, used: set<string>, indent: nat,
                                       entries: Entries, rest: seq<string>, target: Obj, slots: set<Path>)
    requires Dedent(st, indent) == base && Ready(base, path, obj, indent)
    requires entries.Entry? && GoodEntries(used, entries) && obj.Keys == used
    requires Find(target, path) == Some(Fields(obj, entries))
    requires !FitsEntries(entries, indent, Level(base, indent), NextIsItem(rest))
    requires LaterStill(base.data, target, path, slots, rest)
    ensures Fails(st, Lines(entries, indent) + rest, target)
    decreases entries, 0, 2
  {
    var Entry(key, node, more) := entries;
    var below, b := Lines(more, indent) + rest, Level(base, indent);
    EntriesAreNoItems(used + {key}, more, indent, rest);
    FirstField(obj, used, entries);
    RegroupLines(EntryLines(key, node, indent), Lines(more, indent), rest);
    if !FitsNode(node, indent, b, NextIsItem(below)) {
      LaterFields(base.data, target, path, obj, used, indent, entries, rest, slots);
      NodeFail(st, base, path, obj, Fields(obj, entries), indent, key, node, below, target,
               EntriesSlots(path, more) + slots);
    } else {
      MoreFieldsFail(st, base, path, obj, used, indent, entries, rest, target, slots);
    }
  }

  lemma {:induction false} MoreFieldsFail(st: State, base: State, path: Path, obj: Obj, used: set<string>, indent: nat,
                                          entries: Entries, rest: seq<string>, target: Obj, slots: set<Path>)
    requires Dedent(st, indent) == base && Ready(base, path, obj, indent)
    requires entries.Entry? && entries.rest.Entry? && GoodEntries(used, entries) && obj.Keys == used
    requires Find(target, path) == Some(Fields(obj, entries))
    requires FitsNode(entries.node, indent, Level(base, indent), NextIsItem(Lines(entries.rest, indent) + rest))
    requires !(Steady(AfterNode(entries.node, indent, Level(base, indent)), indent, Level(base, indent)) &&
               FitsEntries(entries.rest, indent, Level(base, indent), NextIsItem(rest)))
    requires LaterStill(base.data, target, path, slots, rest)
    ensures Fails(st, EntryLines(entries.key, entries.node, indent) + (Lines(entries.rest, indent) + rest), target)
    decreases entries, 0, 1
  {
    var Entry(key, node, more) := entries;
    var below := Lines(more, indent) + rest;
    FirstField(obj, used, entries);
    var middle := NodeTakes(st, base, path, obj, indent, key, node, below, false);
    StillMissing(base.data, target, path, obj, key, NodeValue(node), slots);
    if Steady(AfterNode(node, indent, Level(base, indent)), indent, Level(base, indent)) {
      FieldsAfterFail(middle, base, path, obj, used, indent, entries, rest, target, slots);
    } else {
      NextMisplaced(middle, base, path, obj, used, indent, entries, rest, target, slots);
    }
    FailsLater(st, EntryLines(key, node, indent), below, middle, target);
  }

  /** `st` comes after the first of these fields, the map at `path` having had the fields `obj` before. */
  ghost predicate PastFirst(st: State, base: State, path: Path, obj: Obj, used: set<string>, indent: nat,
                            entries: Entries) {
    entries.Entry? && entries.rest.Entry? && Ready(base, path, obj, indent) &&
    obj.Keys == used && GoodEntries(used, entries) &&
    Past(st, base, path, indent, Store(base.data, path, obj[entries.key := NodeValue(entries.node)]),
         AfterNode(entries.node, indent, Level(base, indent)))
  }

  lemma {:induction false} NextMisplaced(st: State, base: State, path: Path, obj: Obj, used: set<string>, indent: nat,
                                         entries: Entries, rest: seq<string>, target: Obj, slots: set<Path>)
    requires PastFirst(st, base, path, obj, used, indent, entries)
    requires !Steady(AfterNode(entries.node, indent, Level(base, indent)), indent, Level(base, indent))
    requires Find(target, path) == Some(Fields(obj, entries)) && LaterStill(st.data, target, path, slots, rest)
    ensures Fails(st, Lines(entries.rest, indent) + rest, target)
  {
    var Entry(key, node, more) := entries;
    FirstField(obj, used, entries);
    FieldMisplaced(st, base, path, obj, obj[key := NodeValue(node)], used + {key}, indent,
      AfterNode(node, indent, Level(base, indent)), more, rest, target, slots);
  }

  lemma {:induction false} FieldsAfterFail(st: State, base: State, path: Path, obj: Obj, used: set<string>, indent: nat,
                                           entries: Entries, rest: seq<string>, target: Obj, slots: set<Path>)
    requires PastFirst(st, base, path, obj, used, indent, entries)
    requires Steady(AfterNode(entries.node, indent, Level(base, indent)), indent, Level(base, indent))
    requires !FitsEntries(entries.rest, indent, Level(base, indent), NextIsItem(rest))
    requires Find(target, path) == Some(Fields(obj, entries)) && LaterStill(st.data, target, path, slots, rest)
    ensures Fails(st, Lines(entries.rest, indent) + rest, target)
    decreases entries, 0, 0
  {
    var Entry(key, node, more) := entries;
    var obj' := obj[key := NodeValue(node)];
    FirstField(obj, used, entries);
    var base' := ReadyAgain(st, base, path, obj, obj', indent, AfterNode(node, indent, Level(base, indent)));
    EntriesFail(st, base', path, obj', used + {key}, indent, more, rest, target, slots);
  }

  lemma {:induction false} NodeFail(st: State, base: State, path: Path, obj: Obj, tree: Obj, indent: nat, key: string,
                                    node: Node, rest: seq<string>, target: Obj, slots: set<Path>)
    requires Dedent(st, indent) == base && Ready(base, path, obj, indent)
    requires key !in obj && GoodKey(key) && GoodNode(node)
    requires Find(target, path) == Some(tree) && key in tree && tree[key] == NodeValue(node)
    requires !FitsNode(node, indent, Level(base, indent), NextIsItem(rest))
    requires Later(base.data, target, path, key, slots, rest)
    ensures Fails(st, EntryLines(key, node, indent) + rest, target)
    decreases node, 1
  {
    match node
    case Block(entries) =>
      if entries.End? {
        EmptyFails(st, base, path, obj, tree, indent, key, rest, target, slots);
      } else {
        BlockFails(st, base, path, obj, tree, indent, key, entries, rest, target, slots);
      }
    case Array(elements) => ArrayFails(st, base, path, obj, tree, indent, key, elements, rest, target, slots);
  }

  lemma {:induction false} BlockFails(st: State, base: State, path: Path, obj: Obj, tree: Obj, indent: nat, key: string,
                                      entries: Entries, rest: seq<string>, target: Obj, slots: set<Path>)
    requires Dedent(st, indent) == base && Ready(base, path, obj, indent)
    requires GoodKey(key) && entries.Entry? && GoodEntries({}, entries)
    requires Find(target, path) == Some(tree) && key in tree && tree[key] == Map(Fields(map[], entries))
    requires !FitsEntries(entries, indent + 2, Level(base, indent), NextIsItem(rest))
    requires Later(base.data, target, path, key, slots, rest)
    ensures Fails(st, EntryLines(key, Block(entries), indent) + rest, target)
    decreases entries, 2
  {
    var open := Opened(base, path, obj, indent, key);
    EntriesAreNoItems({}, entries, indent + 2, rest);
    BlockTakes(st, base, path, obj, indent, key, entries, Lines(entries, indent + 2) + rest, false);
    FieldsLater(base.data, path, obj, tree, key, entries, rest, target, slots);
    InnerFieldsFail(base, path, obj, indent, key, entries, rest, target, slots);
    FailsBelow(st, FieldText(key, Block(entries), indent), Lines(entries, indent + 2), rest, open, target);
  }

  lemma {:induction false} InnerFieldsFail(base: State, path: Path, obj: Obj, indent: nat, key: string,
                                           entries: Entries, rest: seq<string>, target: Obj, slots: set<Path>)
    requires Ready(base, path, obj, indent) && entries.Entry? && GoodEntries({}, entries)
    requires !FitsEntries(entries, indent + 2, Level(base, indent), NextIsItem(rest))
    requires Find(target, path + [Field(key)]) == Some(Fields(map[], entries))
    requires LaterStill(Store(base.data, path, obj[key := Map(map[])]), target, path + [Field(key)], slots, rest)
    ensures Fails(Opened(base, path, obj, indent, key), Lines(entries, indent + 2) + rest, target)
    decreases entries, 1
  {
    var open := Opened(base, path, obj, indent, key);
    OpenedIsReady(base, path, obj, indent, key);
    EntriesFail(open, open, path + [Field(key)], map[], {}, indent + 2, entries, rest, target, slots);
  }

  lemma {:induction false} FieldsLater(data: Obj, path: Path, obj: Obj, tree: Obj, key: string, entries: Entries,
                                       rest: seq<string>, target: Obj, slots: set<Path>)
    requires Find(data, path) == Some(obj) && Later(data, target, path, key, slots, rest)
    requires Find(target, path) == Some(tree) && key in tree && tree[key] == Map(Fields(map[], entries))
    ensures Find(target, path + [Field(key)]) == Some(Fields(map[], entries))
    ensures LaterStill(Store(data, path, obj[key := Map(map[])]), target, path + [Field(key)], slots, rest)
  {
    OneHopHas(target, path, tree, Field(key));
    StillMissing(data, target, path, obj, key, Map(map[]), slots);
    FurtherOut(Store(data, path, obj[key := Map(map[])]), target, path, Field(key), slots, rest);
  }

  lemma {:induction false} FailsBelow(st: State, line: string, below: seq<string>, rest: seq<string>, open: State,
                                      target: Obj)
    requires Takes(st, [line], below + rest, open, false) && Fails(open, below + rest, target)
    ensures Fails(st, ([line] + below) + rest, target)
  {
    FailsLater(st, [line], below + rest, open, target);
    Regroup(line, below, rest);
  }

  lemma {:induction false} ArrayFails(st: State, base: State, path: Path, obj: Obj, tree: Obj, indent: nat, key: string,
                                      elements: Elements, rest: seq<string>, target: Obj, slots: set<Path>)
    requires Dedent(st, indent) == base && Ready(base, path, obj, indent)
    requires GoodKey(key) && elements.Item? && GoodElements(elements)
    requires Find(target, path) == Some(tree) && key in tree && tree[key] == Items(ElementObjs([], elements))
    requires !FitsNode(Array(elements), indent, Level(base, indent), NextIsItem(rest))
    requires Later(base.data, target, path, key, slots, rest)
    ensures Fails(st, EntryLines(key, Array(elements), indent) + rest, target)
    decreases elements, 1
  {
    var open := Listed(base, path, obj, indent, key);
    ElementsAreItems(elements, indent, rest);
    ArrayTakes(st, base, path, obj, indent, key, Array(elements), ElementLines(elements, indent) + rest, false);
    ListedIsReady(base, path, obj, indent, key);
    StillMissing(base.data, target, path, obj, key, Items([]), slots);
    ElementsFail(open, base, path, obj, tree, indent, key, [],
      Mark(Level(base, indent) - 1, Level(base, indent) + indent / 2, 0),
                 elements, rest, target, slots);
    FailsBelow(st, FieldText(key, Array(elements), indent), ElementLines(elements, indent), rest, open, target);
  }

  lemma {:induction false} EmptyFails(st: State, base: State, path: Path, obj: Obj, tree: Obj, indent: nat, key: string,
                                      rest: seq<string>, target: Obj, slots: set<Path>)
    requires Dedent(st, indent) == base && Ready(base, path, obj, indent) && GoodKey(key)
    requires Find(target, path) == Some(tree) && key in tree && tree[key] == Map(map[]) && NextIsItem(rest)
    requires Later(base.data, target, path, key, slots, rest)
    ensures Fails(st, EntryLines(key, Block(End), indent) + rest, target)
  {
    var open, slot := Listed(base, path, obj, indent, key), path + [Field(key)];
    NothingBefore([FieldText(key, Block(End), indent)]);
    ArrayTakes(st, base, path, obj, indent, key, Block(End), rest, false);
    StillMissing(base.data, target, path, obj, key, Items([]), slots);
    FindStored(base.data, path, obj[key := Items([])]);
    OneHopHas(open.data, path, obj[key := Items([])], Field(key));
    OneHopHas(target, path, tree, Field(key));
    assert Into(slot, path, key);
    Mistaken(open, rest, path, target, slots, slot);
    assert Differs(open, rest, target);
    FailsLater(st, [FieldText(key, Block(End), indent)], rest, open, target);
  }

  lemma {:induction false} ElementsFail(st: State, base: State, path: Path, obj: Obj, tree: Obj, indent: nat,
                                        key: string, items: seq<Obj>, m: Mark, elements: Elements, rest: seq<string>,
                                        target: Obj, slots: set<Path>)
    requires Ready(base, path, obj, indent) && Between(Dedent(st, indent + 2), base, path, obj, indent, key, items, m)
    requires elements.Item? && GoodElements(elements) && !FitsElements(elements, indent, m, NextIsItem(rest))
    requires Find(target, path) == Some(tree) && key in tree && tree[key] == Items(ElementObjs(items, elements))
    requires Later(Store(base.data, path, obj[key := Items(items)]), target, path, key, slots, rest)
    ensures Fails(st, ElementLines(elements, indent) + rest, target)
    decreases elements, 0
  {
    var below := ElementLines(elements.rest, indent) + rest;
    ElementsAreItems(elements.rest, indent, rest);
    RegroupLines(ItemLines(elements.key, elements.text, elements.more, indent), ElementLines(elements.rest, indent),
      rest);
    if !FitsEntries(elements.more, indent + 4, Base(m, indent), NextIsItem(below)) {
      ItemFails(st, base, path, obj, tree, indent, key, items, m, elements, rest, target, slots);
    } else {
      OthersFail(st, base, path, obj, tree, indent, key, items, m, elements, rest, target, slots);
    }
  }

  lemma RegroupLines(xs: seq<string>, ys: seq<string>, rest: seq<string>)
    ensures (xs + ys) + rest == xs + (ys + rest)
  {
  }

  lemma {:induction false} OthersFail(st: State, base: State, path: Path, obj: Obj, tree: Obj, indent: nat, key: string,
                                      items: seq<Obj>, m: Mark, elements: Elements, rest: seq<string>, target: Obj,
                                      slots: set<Path>)
    requires Ready(base, path, obj, indent) && Between(Dedent(st, indent + 2), base, path, obj, indent, key, items, m)
    requires elements.Item? && elements.rest.Item? && GoodElements(elements)
    requires FitsEntries(elements.more, indent + 4, Base(m, indent),
             NextIsItem(ElementLines(elements.rest, indent) + rest))
    requires !FitsElements(elements.rest, indent, AfterItem(elements.more, indent, m), NextIsItem(rest))
    requires Find(target, path) == Some(tree) && key in tree && tree[key] == Items(ElementObjs(items, elements))
    requires Later(Store(base.data, path, obj[key := Items(items)]), target, path, key, slots, rest)
    ensures Fails(st, ItemLines(elements.key, elements.text, elements.more, indent) +
                      (ElementLines(elements.rest, indent) + rest), target)
    decreases elements, 0, 0
  {
    var Item(k, t, more, others) := elements;
    var items', m' := items + [ItemObj(k, t, more)], AfterItem(more, indent, m);
    var middle := ItemTakes(st, base, path, obj, indent, key, items, m, k, t, more,
                            ElementLines(others, indent) + rest, false);
    NextItem(middle, base, path, obj, indent, key, items', m');
    NextLater(base.data, target, path, obj, key, items, items', slots, rest);
    ElementsFail(middle, base, path, obj, tree, indent, key, items', m', others, rest, target, slots);
    FailsLater(st, ItemLines(k, t, more, indent), ElementLines(others, indent) + rest, middle, target);
  }

  lemma {:induction false} NextLater(data: Obj, target: Obj, path: Path, obj: Obj, key: string, items: seq<Obj>,
                                     items': seq<Obj>, slots: set<Path>, rest: seq<string>)
    requires Find(data, path) == Some(obj) &&
             Later(Store(data, path, obj[key := Items(items)]), target, path, key, slots, rest)
    ensures Later(Store(data, path, obj[key := Items(items')]), target, path, key, slots, rest)
  {
    var owner := obj[key := Items(items)];
    FindStored(data, path, owner);
    StillMissing(Store(data, path, owner), target, path, owner, key, Items(items'), slots);
    StoreTwice(data, path, owner, owner[key := Items(items')]);
    assert owner[key := Items(items')] == obj[key := Items(items')];
  }

  lemma {:induction false} ItemFails(st: State, base: State, path: Path, obj: Obj, tree: Obj, indent: nat, key: string,
                                     items: seq<Obj>, m: Mark, elements: Elements, rest: seq<string>, target: Obj,
                                     slots: set<Path>)
    requires Ready(base, path, obj, indent) && Between(Dedent(st, indent + 2), base, path, obj, indent, key, items, m)
    requires elements.Item? && GoodElements(elements)
    requires !FitsEntries(elements.more, indent + 4, Base(m, indent),
             NextIsItem(ElementLines(elements.rest, indent) + rest))
    requires Find(target, path) == Some(tree) && key in tree && tree[key] == Items(ElementObjs(items, elements))
    requires Later(Store(base.data, path, obj[key := Items(items)]), target, path, key, slots, rest)
    ensures Fails(st, ItemLines(elements.key, elements.text, elements.more, indent) +
                          (ElementLines(elements.rest, indent) + rest), target)
    decreases elements.more, 2
  {
    var Item(k, t, more, others) := elements;
    var below, first, path' := ElementLines(others, indent) + rest, map[k := Str(t)], path + [Elem(key, |items|)];
    var open := InElement(base, path, obj, indent, key, items, first, m);
    ItemLineTakes(st, base, path, obj, indent, key, items, m, k, t, Lines(more, indent + 4) + below, false);
    ItemLater(base.data, path, obj, tree, indent, key, items, first, elements, rest, target, slots);
    ItemFieldsFail(base, path, obj, indent, key, items, m, k, t, more, below, target,
                   ElementsSlots(path, key, |items| + 1, others) + slots);
    FailsBelow(st, ItemText(k, t, indent), Lines(more, indent + 4), below, open, target);
  }

  lemma {:induction false} ItemFieldsFail(base: State, path: Path, obj: Obj, indent: nat, key: string, items: seq<Obj>,
                                          m: Mark, k: string, t: string, more: Entries, rest: seq<string>, target: Obj,
                                          slots: set<Path>)
    requires Ready(base, path, obj, indent) && 1 <= KeptAt(base.stack, indent, m) && GoodEntries({k}, more)
    requires !FitsEntries(more, indent + 4, Base(m, indent), NextIsItem(rest))
    requires Find(target, path + [Elem(key, |items|)]) == Some(ItemObj(k, t, more))
    requires LaterStill(Store(base.data, path, obj[key := Items(items + [map[k := Str(t)]])]), target,
                        path + [Elem(key, |items|)], slots, rest)
    ensures Fails(InElement(base, path, obj, indent, key, items, map[k := Str(t)], m), Lines(more, indent + 4) + rest,
            target)
    decreases more, 1
  {
    var open := InElement(base, path, obj, indent, key, items, map[k := Str(t)], m);
    ElementIsReady(base, path, obj, indent, key, items, map[k := Str(t)], m);
    EntriesFail(open, open, path + [Elem(key, |items|)], map[k := Str(t)], {k}, indent + 4, more, rest, target, slots);
  }

  lemma {:induction false} ItemLater(data: Obj, path: Path, obj: Obj, tree: Obj, indent: nat, key: string,
                                     items: seq<Obj>, first: Obj, elements: Elements, rest: seq<string>, target: Obj,
                                     slots: set<Path>)
    requires Find(data, path) == Some(obj) && elements.Item? && GoodElements(elements)
    requires Find(target, path) == Some(tree) && key in tree && tree[key] == Items(ElementObjs(items, elements))
    requires Later(Store(data, path, obj[key := Items(items)]), target, path, key, slots, rest)
    ensures Find(target, path + [Elem(key, |items|)]) == Some(ItemObj(elements.key, elements.text, elements.more))
    ensures LaterStill(Store(data, path, obj[key := Items(items + [first])]), target, path + [Elem(key, |items|)],
                       ElementsSlots(path, key, |items| + 1, elements.rest) + slots,
                         ElementLines(elements.rest, indent) + rest)
  {
    var obj' := obj[key := Items(items + [first])];
    ElementIsThere(target, path, tree, key, items, elements);
    NextLater(data, target, path, obj, key, items, items + [first], slots, rest);
    FindStored(data, path, obj');
    LaterElements(Store(data, path, obj'), target, path, obj', tree, key, items, first, indent, elements, rest, slots);
  }
}
