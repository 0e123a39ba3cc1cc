/** Reading printed fields: what is stored, and what is left on the parser's stack. */
module YamlRoundTrip {
  import opened Prelude
  import opened Yaml
  import opened YamlFits

  // ----- The tree under a path -----

  lemma {:induction false} FindStored(root: Obj, path: Path, obj: Obj)
    requires Find(root, path).Some?
    ensures Find(Store(root, path, obj), path) == Some(obj)
    decreases |path|
  {
    if path != [] {
      match (path[0], root[path[0].key])
      case (Field(_), Map(inner)) => FindStored(inner, path[1..], obj);
      case (Elem(_, i), Items(items)) => FindStored(items[i], path[1..], obj);
    }
  }

  lemma {:induction false} StoreTwice(root: Obj, path: Path, first: Obj, second: Obj)
    requires Find(root, path).Some?
    ensures Store(Store(root, path, first), path, second) == Store(root, path, second)
    decreases |path|
  {
    if path != [] {
      match (path[0], root[path[0].key])
      case (Field(_), Map(inner)) => StoreTwice(inner, path[1..], first, second);
      case (Elem(_, i), Items(items)) =>
        StoreTwice(items[i], path[1..], first, second);
        var once, twice := Store(items[i], path[1..], first), Store(items[i], path[1..], second);
        assert items[i := once][i := twice] == items[i := twice];
    }
  }

  /** One hop further down. */
  lemma {:induction false} OneHop(root: Obj, path: Path, obj: Obj, hop: Hop, inner: Obj)
    requires Find(root, path) == Some(obj) && Find(obj, [hop]).Some?
    ensures Find(root, path + [hop]) == Find(obj, [hop])
    ensures Store(root, path + [hop], inner) == Store(root, path, Store(obj, [hop], inner))
    decreases |path|
  {
    if path == [] {
      assert path + [hop] == [hop];
    } else {
      assert (path + [hop])[0] == path[0] && (path + [hop])[1..] == path[1..] + [hop];
      match (path[0], root[path[0].key])
      case (Field(_), Map(below)) => OneHop(below, path[1..], obj, hop, inner);
      case (Elem(_, i), Items(items)) => OneHop(items[i], path[1..], obj, hop, inner);
    }
  }

  lemma FieldHop(obj: Obj, key: string, before: Obj, inner: Obj)
    ensures Find(obj[key := Map(before)], [Field(key)]) == Some(before)
    ensures Store(obj[key := Map(before)], [Field(key)], inner) == obj[key := Map(inner)]
  {
    assert [Field(key)][1..] == [];
    assert obj[key := Map(before)][key := Map(inner)] == obj[key := Map(inner)];
  }

  lemma ElemHop(obj: Obj, key: string, items: seq<Obj>, before: Obj, inner: Obj)
    ensures Find(obj[key := Items(items + [before])], [Elem(key, |items|)]) == Some(before)
    ensures Store(obj[key := Items(items + [before])], [Elem(key, |items|)], inner) ==
            obj[key := Items(items + [inner])]
  {
    assert [Elem(key, |items|)][1..] == [];
    assert (items + [before])[|items| := inner] == items + [inner];
    assert obj[key := Items(items + [before])][key := Items(items + [inner])] == obj[key := Items(items + [inner])];
  }

  /** Filling a map is storing the filled map. */
  lemma FillingABlock(root: Obj, path: Path, obj: Obj, key: string, before: Obj, inner: Obj)
    requires Find(root, path) == Some(obj)
    ensures var data := Store(root, path, obj[key := Map(before)]);
            Find(data, path + [Field(key)]) == Some(before) &&
            Store(data, path + [Field(key)], inner) == Store(root, path, obj[key := Map(inner)])
  {
    var obj1 := obj[key := Map(before)];
    FindStored(root, path, obj1);
    FieldHop(obj, key, before, inner);
    OneHop(Store(root, path, obj1), path, obj1, Field(key), inner);
    StoreTwice(root, path, obj1, obj[key := Map(inner)]);
  }

  /** Filling the last element is storing the array with the filled element. */
  lemma FillingAnElement(root: Obj, path: Path, obj: Obj, key: string, items: seq<Obj>, before: Obj, inner: Obj)
    requires Find(root, path) == Some(obj)
    ensures var data := Store(root, path, obj[key := Items(items + [before])]);
            Find(data, path + [Elem(key, |items|)]) == Some(before) &&
            Store(data, path + [Elem(key, |items|)], inner) == Store(root, path, obj[key := Items(items + [inner])])
  {
    var obj1 := obj[key := Items(items + [before])];
    FindStored(root, path, obj1);
    ElemHop(obj, key, items, before, inner);
    OneHop(Store(root, path, obj1), path, obj1, Elem(key, |items|), inner);
    StoreTwice(root, path, obj1, obj[key := Items(items + [inner])]);
  }

  // ----- The discipline of the parser's stack -----

  /** How many maps are open at `indent`: the root and one per two columns, but none for the first
      two columns of each open array. */
  function Depth(indent: int, arrays: int): int {
    1 + indent / 2 - arrays
  }

  /** The stack at the level of a line: as deep as the indentation says, the root at the bottom,
      nothing dangling; and for an item, no entry into the array that is about to grow. */
  ghost predicate Tidy(level: State, indent: nat, body: string) {
    |level.stack| == Depth(indent, |level.arrays|) && |level.stack| > 0 && level.stack[0] == To([]) &&
    (forall i :: 0 <= i < |level.stack| ==> level.stack[i].To?) &&
    (body != "" && body[0] == '-' && level.arrays != [] ==>
       var last := level.arrays[|level.arrays| - 1];
       last.ToArray? && forall i :: 0 <= i < |level.stack| ==> !Into(level.stack[i].path, last.path, last.key))
  }

  /** Every line is read from a tidy stack, and without error. */
  ghost predicate Disciplined(st: State, lines: seq<string>)
    decreases |lines|
  {
    lines == [] ||
    var body := Trim(lines[0]);
    if Skipped(body) then Disciplined(st, lines[1..])
    else
      Tidy(Dedent(st, Indent(lines[0])), Indent(lines[0]), body) &&
      match Step(st, Indent(lines[0]), body, NextIsItem(lines[1..]))
      case Err(_) => false
      case Ok(st') => Disciplined(st', lines[1..])
  }

  // ----- Levels of the parser -----

  /** The parser is at the level of `indent`: its innermost pointer is `path`, where the map `obj`
      is; no other live stack entry is as deep; open arrays are further out. */
  ghost predicate Ready(st: State, path: Path, obj: Obj, indent: nat) {
    indent % 2 == 0 && ReadyStack(st.stack, path) && Find(st.data, path) == Some(obj) &&
    |st.arrays| == |st.indents| &&
    (forall i :: 0 <= i < |st.arrays| ==> st.arrays[i].ToArray? && |st.arrays[i].path| < |path|) &&
    (forall i :: 0 <= i < |st.indents| ==> st.indents[i] <= indent)
  }

  ghost predicate ReadyStack(stack: seq<Ptr>, path: Path) {
    |stack| > 0 && stack[0] == To([]) && stack[|stack| - 1] == To(path) &&
    forall i :: 0 <= i < |stack| - 1 ==> stack[i].To? ==> |stack[i].path| <= |path| && stack[i].path != path
  }

  /** The level, as counted in marks, of the map on top of the stack. */
  function Level(st: State, indent: nat): int {
    |st.stack| - indent / 2
  }

  /** Nothing is left on the stack that should not be there. */
  ghost predicate Neat(st: State, indent: nat) {
    |st.stack| == Depth(indent, |st.arrays|) && forall i :: 0 <= i < |st.stack| ==> st.stack[i].To?
  }

  /** `st` comes after lines at and below `indent`: it has the arrays of `base` open, and maybe some
      that started below `indent` and no lower than its last line. */
  ghost predicate ArraysOver(st: State, arrays: seq<ArrayPtr>, indents: seq<int>, indent: int) {
    |st.arrays| == |st.indents| && |arrays| == |indents| &&
    arrays <= st.arrays && indents <= st.indents &&
    forall i :: |indents| <= i < |st.indents| ==> indent < st.indents[i] <= st.previous
  }

  /** Its stack has the size the mark says; it shares with `below` what has never been removed, and
      the rest is dangling or inside the map at `path`. */
  ghost predicate StackOver(stack: seq<Ptr>, below: seq<Ptr>, path: Path, previous: int, m: Mark) {
    var kept := Min(m.low, |below|);
    |stack| == m.level + previous / 2 && 1 <= kept <= |stack| && stack[..kept] == below[..kept] &&
    (forall i :: kept <= i < |stack| ==> stack[i].To? ==> path < stack[i].path) &&
    (forall i :: kept <= i < |stack| && i < m.dead ==> stack[i].Dangling?)
  }

  /** `st` comes after the lines of a field, or of some, of the map on top of `base`'s stack. */
  ghost predicate Past(st: State, base: State, path: Path, indent: nat, data: Obj, m: Mark) {
    st.data == data && st.previous >= indent && st.previous % 2 == 0 &&
    ArraysOver(st, base.arrays, base.indents, indent) && StackOver(st.stack, base.stack, path, st.previous, m)
  }

  // ----- Leaving levels -----

  lemma {:induction false} PopGives(st: State, indent: int, n: nat)
    requires |st.arrays| == |st.indents| && n <= |st.indents|
    requires forall i :: 0 <= i < n ==> st.indents[i] <= indent
    requires forall i :: n <= i < |st.indents| ==> indent < st.indents[i]
    ensures PopArrays(st, indent) == st.(arrays := st.arrays[..n], indents := st.indents[..n])
    decreases |st.indents|
  {
    if n < |st.indents| {
      var m := |st.indents| - 1;
      PopGives(st.(arrays := st.arrays[..m], indents := st.indents[..m]), indent, n);
      assert st.arrays[..m][..n] == st.arrays[..n] && st.indents[..m][..n] == st.indents[..n];
    } else {
      assert st.arrays[..n] == st.arrays && st.indents[..n] == st.indents;
    }
  }

  function SizeAt(st: State, indent: int): int {
    Max(1, |st.stack| - (st.previous - indent) / 2)
  }

  lemma {:induction false} DedentGives(st: State, indent: nat, n: nat)
    requires |st.arrays| == |st.indents| && n <= |st.indents| && |st.stack| > 0
    requires forall i :: 0 <= i < n ==> st.indents[i] <= indent
    requires forall i :: n <= i < |st.indents| ==> indent < st.indents[i] <= st.previous
    requires indent <= st.previous && (st.previous - indent) % 2 == 0
    ensures SizeAt(st, indent) <= |st.stack|
    ensures Dedent(st, indent) ==
            State(st.data, st.stack[..SizeAt(st, indent)], st.arrays[..n], st.indents[..n], indent)
    decreases st.previous
  {
    if indent < st.previous {
      PopGives(st, indent, n);
      var stack := if |st.stack| > 1 then st.stack[..|st.stack| - 1] else st.stack;
      var st1 := State(st.data, stack, st.arrays[..n], st.indents[..n], st.previous - 2);
      DedentGives(st1, indent, n);
      assert st1.stack[..SizeAt(st1, indent)] == st.stack[..SizeAt(st, indent)];
      assert st1.arrays[..n] == st.arrays[..n] && st1.indents[..n] == st.indents[..n];
    } else {
      assert st.arrays[..n] == st.arrays && st.indents[..n] == st.indents;
      assert st.stack[..|st.stack|] == st.stack;
    }
  }

  /** Coming back to the level of `base`: whatever is on the stack then. */
  lemma BackAt(st: State, base: State, path: Path, obj: Obj, indent: nat, data: Obj, m: Mark)
    requires Ready(base, path, obj, indent) && Past(st, base, path, indent, data, m)
    ensures 1 <= SizeAt(st, indent) <= |st.stack|
    ensures SizeAt(st, indent) == Max(1, m.level + indent / 2)
    ensures Dedent(st, indent) == State(data, st.stack[..SizeAt(st, indent)], base.arrays, base.indents, indent)
  {
    var n := |base.indents|;
    forall i | 0 <= i < n ensures st.indents[i] <= indent { assert st.indents[i] == base.indents[i]; }
    DedentGives(st, indent, n);
    assert st.arrays[..n] == base.arrays && st.indents[..n] == base.indents;
  }

  /** If the count is right, the parser is ready for the next field of the same map. */
  lemma ReadyAgain(st: State, base: State, path: Path, obj: Obj, obj': Obj, indent: nat, m: Mark) returns (base': State)
    requires Ready(base, path, obj, indent) && Past(st, base, path, indent, Store(base.data, path, obj'), m)
    requires Steady(m, indent, Level(base, indent))
    ensures base' == base.(data := Store(base.data, path, obj'), previous := indent)
    ensures Dedent(st, indent) == base' && Ready(base', path, obj', indent)
    ensures Neat(base', indent) == Neat(base, indent)
  {
    base' := base.(data := Store(base.data, path, obj'), previous := indent);
    BackAt(st, base, path, obj, indent, base'.data, m);
    RootAlone(base.stack, path);
    assert SizeAt(st, indent) == |base.stack| && Min(m.low, |base.stack|) <= |base.stack|;
    assert st.stack[..|base.stack|] == base.stack;
    FindStored(base.data, path, obj');
  }

  lemma RootAlone(stack: seq<Ptr>, path: Path)
    requires ReadyStack(stack, path)
    ensures path == [] <==> |stack| == 1
  {
    assert |stack| > 1 ==> stack[0] == To([]) && stack[0].path != path;
  }
}
