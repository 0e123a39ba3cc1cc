/**
  What any file, printed or not, can put into the tree. A slot is a path whose last hop names a field
  or an element. A field line writes at most one slot, an item line at most two; a slot that is never
  written is in the tree at the end only if it was there before.
*/
module YamlWrites {
  import opened Prelude
  import opened Yaml
  import opened YamlRoundTrip

  // ----- Slots -----

  function Parent(q: Path): Path
    requires q != []
  {
    q[..|q| - 1]
  }

  predicate Holds(obj: Obj, hop: Hop) {
    match hop
    case Field(k) => k in obj
    case Elem(k, i) => k in obj && obj[k].Items? && i < |obj[k].items|
  }

  predicate HoldsArray(obj: Obj, hop: Hop) {
    hop.Field? && hop.key in obj && obj[hop.key].Items?
  }

  /** The slot `q` is in the tree. */
  predicate Has(root: Obj, q: Path) {
    q != [] && Find(root, Parent(q)).Some? && Holds(Find(root, Parent(q)).value, q[|q| - 1])
  }

  /** It is the slot of a block array. */
  predicate IsArray(root: Obj, q: Path) {
    q != [] && Find(root, Parent(q)).Some? && HoldsArray(Find(root, Parent(q)).value, q[|q| - 1])
  }

  /** The slot is in both trees alike, or in neither. */
  predicate Same(a: Obj, b: Obj, q: Path) {
    Has(a, q) == Has(b, q) && IsArray(a, q) == IsArray(b, q)
  }

  lemma {:induction false} FindUnder(root: Obj, path: Path, below: Path)
    ensures Find(root, path + below) == match Find(root, path) case None => None case Some(obj) => Find(obj, below)
    decreases |path|
  {
    if path == [] {
      assert path + below == below;
    } else {
      assert (path + below)[0] == path[0] && (path + below)[1..] == path[1..] + below;
      if path[0].key in root {
        match (path[0], root[path[0].key])
        case (Field(_), Map(obj)) => FindUnder(obj, path[1..], below);
        case (Elem(_, i), Items(items)) => if i < |items| { FindUnder(items[i], path[1..], below); }
        case _ =>
      }
    }
  }

  /** A slot under `path` is a slot of the map there. */
  lemma {:induction false} SlotUnder(root: Obj, path: Path, below: Path)
    requires below != []
    ensures match Find(root, path)
            case None => !Has(root, path + below) && !IsArray(root, path + below)
            case Some(obj) =>
              Has(root, path + below) == Has(obj, below) && IsArray(root, path + below) == IsArray(obj, below)
  {
    assert Parent(path + below) == path + Parent(below) && (path + below)[|path + below| - 1] == below[|below| - 1];
    FindUnder(root, path, Parent(below));
  }

  /** Storing at `path` changes no slot elsewhere. */
  lemma {:induction false} SlotElsewhere(root: Obj, path: Path, obj: Obj, q: Path)
    requires !(path < q)
    ensures Same(Store(root, path, obj), root, q)
    decreases |path|
  {
    if path == [] || q == [] || path[0].key !in root { return; }
    if |q| == 1 {
      assert Parent(q) == [];
      HopElsewhere(root, path, obj, q[0]);
    } else if q[0] == path[0] {
      assert path[1..] < q[1..] ==> path < q by {
        assert path == path[..1] + path[1..] && q == q[..1] + q[1..];
      }
      assert q[..1] == path[..1];
      ChildElsewhere(root, path, obj, q[1..]);
      SameBelow(root, Store(root, path, obj), q);
    } else {
      assert q[..1] == [q[0]];
      OtherChild(root, path, obj, q[0]);
      SameBelow(root, Store(root, path, obj), q);
    }
  }

  /** A slot below the first hop is the same if what that hop leads to has the same slot. */
  lemma {:induction false} SameBelow(root: Obj, root': Obj, q: Path)
    requires |q| > 1
    requires match (Find(root, q[..1]), Find(root', q[..1]))
             case (Some(a), Some(b)) => Same(a, b, q[1..])
             case (None, None) => true
             case _ => false
    ensures Same(root', root, q)
  {
    assert q == q[..1] + q[1..];
    SlotUnder(root, q[..1], q[1..]);
    SlotUnder(root', q[..1], q[1..]);
  }

  lemma {:induction false} HopElsewhere(root: Obj, path: Path, obj: Obj, hop: Hop)
    requires path != []
    ensures var root' := Store(root, path, obj);
            Holds(root', hop) == Holds(root, hop) && HoldsArray(root', hop) == HoldsArray(root, hop)
  {
  }

  lemma {:induction false} OtherChild(root: Obj, path: Path, obj: Obj, hop: Hop)
    requires path != [] && hop != path[0]
    ensures Find(Store(root, path, obj), [hop]) == Find(root, [hop])
  {
    assert [hop][0] == hop && [hop][1..] == [];
  }

  lemma {:induction false} ChildElsewhere(root: Obj, path: Path, obj: Obj, below: Path)
    requires path != [] && path[0].key in root && below != [] && !(path[1..] < below)
    ensures var hop, root' := path[..1], Store(root, path, obj);
            match (Find(root, hop), Find(root', hop))
            case (Some(a), Some(b)) => Same(a, b, below)
            case (None, None) => true
            case _ => false
    decreases |path|, 0
  {
    var hop := path[..1];
    assert hop[0] == path[0] && hop[1..] == [];
    match (path[0], root[path[0].key])
    case (Field(_), Map(inner)) =>
      assert Find(root, hop) == Some(inner);
      assert Find(Store(root, path, obj), hop) == Some(Store(inner, path[1..], obj));
      SlotElsewhere(inner, path[1..], obj, below);
    case (Elem(_, i), Items(items)) =>
      if i < |items| {
        assert Find(root, hop) == Some(items[i]);
        assert Find(Store(root, path, obj), hop) == Some(Store(items[i], path[1..], obj));
        SlotElsewhere(items[i], path[1..], obj, below);
      } else {
        assert Store(root, path, obj) == root && Find(root, hop) == None;
      }
    case _ => assert Store(root, path, obj) == root && Find(root, hop) == None;
  }

  // ----- One assignment -----

  /** A value with no slots inside. */
  predicate Blank(value: Value) {
    (value.Map? ==> value.obj == map[]) && (value.Items? ==> value.items == [])
  }

  lemma {:induction false} NothingInBlank(obj: Obj, key: string, value: Value, below: Path)
    requires Blank(value) && below != [] && below[0].key == key && below != [Field(key)]
    ensures !Has(obj[key := value], below)
  {
    var obj' := obj[key := value];
    if |below| == 1 {
      assert Parent(below) == [];
    } else {
      var g, rest := below[..1], below[1..];
      assert below == g + rest && g[1..] == [];
      SlotUnder(obj', g, rest);
      assert Find(map[], []) == Some(map[]);
      if Find(obj', g).Some? {
        assert Find(obj', g) == Some(map[]);
        if |rest| == 1 { assert Parent(rest) == []; }
      }
    }
  }

  lemma {:induction false} OtherKey(obj: Obj, key: string, value: Value, below: Path)
    requires below != [] && below[0].key != key
    ensures Same(obj[key := value], obj, below)
  {
    var obj' := obj[key := value];
    if |below| == 1 {
      assert Parent(below) == [];
    } else {
      var g, rest := below[..1], below[1..];
      assert below == g + rest && g[0] == below[0] && g[1..] == [];
      SlotUnder(obj', g, rest);
      SlotUnder(obj, g, rest);
    }
  }

  /** Assigning a field adds at most its slot. */
  lemma {:induction false} AssignedSlot(root: Obj, path: Path, obj: Obj, key: string, value: Value, q: Path)
    requires Find(root, path) == Some(obj) && Blank(value) && q != path + [Field(key)]
    ensures var data := Store(root, path, obj[key := value]); Has(data, q) ==> Same(data, root, q)
  {
    var data := Store(root, path, obj[key := value]);
    if path < q {
      var below := q[|path|..];
      assert q == path + below;
      FindStored(root, path, obj[key := value]);
      SlotUnder(root, path, below);
      SlotUnder(data, path, below);
      if below[0].key == key { NothingInBlank(obj, key, value, below); } else { OtherKey(obj, key, value, below); }
    } else {
      SlotElsewhere(root, path, obj[key := value], q);
    }
  }

  lemma {:induction false} AppendedBelow(obj: Obj, key: string, items: seq<Obj>, below: Path)
    requires key in obj && obj[key] == Items(items)
    requires below != [] && below != [Elem(key, |items|)]
    ensures var obj' := obj[key := Items(items + [map[]])]; Has(obj', below) ==> Same(obj', obj, below)
  {
    var obj' := obj[key := Items(items + [map[]])];
    if |below| == 1 {
      assert Parent(below) == [];
    } else {
      var g, rest := below[..1], below[1..];
      assert below == g + rest && g[0] == below[0] && g[1..] == [];
      SlotUnder(obj', g, rest);
      SlotUnder(obj, g, rest);
      if below[0] == Elem(key, |items|) {
        assert Find(obj', g) == Some(map[]);
        if |rest| == 1 { assert Parent(rest) == []; }
      }
    }
  }

  /** Appending an element adds at most its slot. */
  lemma {:induction false} AppendedSlot(root: Obj, path: Path, obj: Obj, key: string, items: seq<Obj>, q: Path)
    requires Find(root, path) == Some(obj) && key in obj && obj[key] == Items(items) && q != path + [Elem(key, |items|)]
    ensures var data := Store(root, path, obj[key := Items(items + [map[]])]); Has(data, q) ==> Same(data, root, q)
  {
    var obj' := obj[key := Items(items + [map[]])];
    var data := Store(root, path, obj');
    if path < q {
      var below := q[|path|..];
      assert q == path + below;
      FindStored(root, path, obj');
      SlotUnder(root, path, below);
      SlotUnder(data, path, below);
      AppendedBelow(obj, key, items, below);
    } else {
      SlotElsewhere(root, path, obj', q);
    }
  }

  // ----- One line -----

  /** How many elements the array has. */
  function Length(data: Obj, path: Path, key: string): nat {
    match Find(data, path)
    case None => 0
    case Some(obj) => if key in obj && obj[key].Items? then |obj[key].items| else 0
  }

  function ItemWrites(level: State, item: string): set<Path> {
    if level.arrays == [] || level.arrays[|level.arrays| - 1].DanglingArray? then {}
    else
      var last := level.arrays[|level.arrays| - 1];
      var element := last.path + [Elem(last.key, Length(level.data, last.path, last.key))];
      if item == "" then {element} else {element, element + [Field(Key(item))]}
  }

  function TopWrites(level: State, key: string): set<Path> {
    if level.stack == [] || level.stack[|level.stack| - 1].Dangling? then {}
    else {level.stack[|level.stack| - 1].path + [Field(key)]}
  }

  /** The slots a line writes, if it is read without error. */
  function LineWrites(level: State, body: string): set<Path>
    requires body != ""
  {
    if body[0] == '-' then ItemWrites(level, Trim(body[1..])) else TopWrites(level, Key(body))
  }

  function LineBudget(body: string): nat
    requires body != ""
  {
    if body[0] == '-' then 2 else 1
  }

  /** What was not written is as before. */
  ghost predicate OnlyWrites(before: Obj, after: Obj, written: set<Path>) {
    forall q :: q !in written && Has(after, q) ==> Same(after, before, q)
  }

  /** A pointer on the stack was there before, or is to a slot just written. */
  ghost predicate OnlyPushes(before: seq<Ptr>, after: seq<Ptr>, written: set<Path>) {
    forall p :: To(p) in after ==> To(p) in before || p in written
  }

  lemma {:induction false} AssignWrites(st: State, key: string, value: Value, st': State)
    requires Assign(st, key, value) == Ok(st') && Blank(value)
    ensures OnlyWrites(st.data, st'.data, TopWrites(st, key))
    ensures OnlyPushes(st.stack, st'.stack, {})
    ensures |st'.stack| == |st.stack| > 0 && st'.stack[|st'.stack| - 1] == st.stack[|st.stack| - 1] &&
            st.stack[|st.stack| - 1].To?
  {
    var path := st.stack[|st.stack| - 1].path;
    forall q | q !in TopWrites(st, key) && Has(st'.data, q) ensures Same(st'.data, st.data, q) {
      AssignedSlot(st.data, path, Top(st).value, key, value, q);
    }
    assert !Into(path, path, key);
  }

  lemma {:induction false} PushWrites(st: State, st': State)
    requires PushItem(st) == Ok(st')
    ensures st.arrays != [] && st.arrays[|st.arrays| - 1].ToArray?
    ensures var last := st.arrays[|st.arrays| - 1];
            var element := last.path + [Elem(last.key, Length(st.data, last.path, last.key))];
            OnlyWrites(st.data, st'.data, {element}) && OnlyPushes(st.stack, st'.stack, {element}) &&
            |st'.stack| > 0 && st'.stack[|st'.stack| - 1] == To(element)
  {
    var last := st.arrays[|st.arrays| - 1];
    var obj := Find(st.data, last.path).value;
    var items := obj[last.key].items;
    forall q | q != last.path + [Elem(last.key, |items|)] && Has(st'.data, q) ensures Same(st'.data, st.data, q) {
      AppendedSlot(st.data, last.path, obj, last.key, items, q);
    }
  }

  lemma {:induction false} WritesBoth(a: Obj, b: Obj, c: Obj, first: set<Path>, second: set<Path>)
    requires OnlyWrites(a, b, first) && OnlyWrites(b, c, second)
    ensures OnlyWrites(a, c, first + second)
  {
    forall q | q !in first + second && Has(c, q) ensures Same(c, a, q) {
      assert Same(c, b, q) && Has(b, q);
    }
  }

  lemma {:induction false} FieldLineWrites(level: State, indent: nat, body: string, arrayFollows: bool, st': State)
    requires body != "" && FieldLine(level, indent, body, arrayFollows) == Ok(st')
    ensures OnlyWrites(level.data, st'.data, TopWrites(level, Key(body)))
    ensures OnlyPushes(level.stack, st'.stack, TopWrites(level, Key(body)))
  {
    var key, value := Key(body), After(body);
    var stored := if value == "" then (if arrayFollows then Items([]) else Map(map[]))
                  else if IsBracketed(value) then List(ListElements(value[1..|value| - 1]))
                  else ReadScalar(value).value;
    var outcome := Assign(level, key, stored);
    if outcome.Ok? { AssignWrites(level, key, stored, outcome.value); }
  }

  lemma {:induction false} ItemLineWrites(level: State, indent: nat, body: string, st': State)
    requires body != "" && ItemLine(level, indent, body) == Ok(st')
    ensures OnlyWrites(level.data, st'.data, ItemWrites(level, Trim(body[1..])))
    ensures OnlyPushes(level.stack, st'.stack, ItemWrites(level, Trim(body[1..])))
  {
    var item, pushed := Trim(body[1..]), PushItem(level).value;
    PushWrites(level, pushed);
    if item != "" {
      var last := level.arrays[|level.arrays| - 1];
      var element := last.path + [Elem(last.key, Length(level.data, last.path, last.key))];
      var stored := if After(item) == "" then Map(map[]) else Str(After(item));
      AssignWrites(pushed, Key(item), stored, Assign(pushed, Key(item), stored).value);
      assert TopWrites(pushed, Key(item)) == {element + [Field(Key(item))]};
      WritesBoth(level.data, pushed.data, Assign(pushed, Key(item), stored).value.data, {element},
        {element + [Field(Key(item))]});
      assert {element} + {element + [Field(Key(item))]} == ItemWrites(level, item);
    }
  }

  lemma {:induction false} PopKeepsData(st: State, indent: int)
    ensures PopArrays(st, indent).data == st.data && PopArrays(st, indent).stack == st.stack
    decreases |st.indents|
  {
    if st.indents != [] && indent < st.indents[|st.indents| - 1] && st.arrays != [] {
      PopKeepsData(st.(arrays := st.arrays[..|st.arrays| - 1], indents := st.indents[..|st.indents| - 1]), indent);
    }
  }

  lemma {:induction false} DedentKeepsData(st: State, indent: int)
    ensures Dedent(st, indent).data == st.data && Dedent(st, indent).stack <= st.stack
    decreases st.previous - indent
  {
    if indent < st.previous {
      var popped := PopArrays(st, indent);
      PopKeepsData(st, indent);
      var stack := if |popped.stack| > 1 then popped.stack[..|popped.stack| - 1] else popped.stack;
      DedentKeepsData(popped.(stack := stack, previous := st.previous - 2), indent);
    }
  }

  lemma {:induction false} StepWrites(st: State, indent: nat, body: string, arrayFollows: bool, st': State)
    requires body != "" && Step(st, indent, body, arrayFollows) == Ok(st')
    ensures OnlyWrites(st.data, st'.data, LineWrites(Dedent(st, indent), body))
    ensures OnlyPushes(Dedent(st, indent).stack, st'.stack, LineWrites(Dedent(st, indent), body))
  {
    DedentKeepsData(st, indent);
    var level := Dedent(st, indent);
    if body[0] == '-' { ItemLineWrites(level, indent, body, st'); }
      else { FieldLineWrites(level, indent, body, arrayFollows, st'); }
  }

  // ----- Any number of lines -----

  /** The slots written from `st` on, up to the end or the first error. */
  function Writes(st: State, lines: seq<string>): set<Path>
    decreases |lines|
  {
    if lines == [] then {}
    else
      var body := Trim(lines[0]);
      if Skipped(body) then Writes(st, lines[1..])
      else
        LineWrites(Dedent(st, Indent(lines[0])), body) +
        match Step(st, Indent(lines[0]), body, NextIsItem(lines[1..]))
        case Err(_) => {}
        case Ok(st') => Writes(st', lines[1..])
  }

  /** One for a field line, two for an item line. */
  function Budget(lines: seq<string>): nat {
    if lines == [] then 0
    else
      var body := Trim(lines[0]);
      (if Skipped(body) then 0 else LineBudget(body)) + Budget(lines[1..])
  }

  lemma {:induction false} BudgetOfBoth(xs: seq<string>, ys: seq<string>)
    ensures Budget(xs + ys) == Budget(xs) + Budget(ys)
    decreases |xs|
  {
    if xs == [] {
      assert xs + ys == ys;
    } else {
      assert (xs + ys)[0] == xs[0] && (xs + ys)[1..] == xs[1..] + ys;
      BudgetOfBoth(xs[1..], ys);
    }
  }

  lemma {:induction false} SizeOfUnion<T>(a: set<T>, b: set<T>)
    ensures |a + b| <= |a| + |b|
    ensures a !! b ==> |a + b| == |a| + |b|
  {
    assert |a + b| + |a * b| == |a| + |b|;
    if a !! b { assert a * b == {}; }
  }

  lemma LineWithinBudget(level: State, body: string)
    requires body != ""
    ensures |LineWrites(level, body)| <= LineBudget(body)
  {
  }

  lemma {:induction false} WithinBudget(st: State, lines: seq<string>)
    ensures |Writes(st, lines)| <= Budget(lines)
    decreases |lines|
  {
    if lines != [] {
      var body := Trim(lines[0]);
      if Skipped(body) {
        WithinBudget(st, lines[1..]);
      } else {
        var written := LineWrites(Dedent(st, Indent(lines[0])), body);
        LineWithinBudget(Dedent(st, Indent(lines[0])), body);
        match Step(st, Indent(lines[0]), body, NextIsItem(lines[1..]))
        case Err(_) => assert written + {} == written;
        case Ok(st') =>
          WithinBudget(st', lines[1..]);
          SizeOfUnion(written, Writes(st', lines[1..]));
      }
    }
  }

  /** The final tree has only what was there and what was written. */
  lemma {:induction false} ParseWrites(st: State, lines: seq<string>)
    requires ParseFrom(st, lines).Ok?
    ensures OnlyWrites(st.data, ParseFrom(st, lines).value, Writes(st, lines))
    decreases |lines|
  {
    if lines != [] {
      var body := Trim(lines[0]);
      if Skipped(body) {
        ParseWrites(st, lines[1..]);
      } else {
        var st' := Step(st, Indent(lines[0]), body, NextIsItem(lines[1..])).value;
        StepWrites(st, Indent(lines[0]), body, NextIsItem(lines[1..]), st');
        ParseWrites(st', lines[1..]);
        WritesBoth(st.data, st'.data, ParseFrom(st', lines[1..]).value,
                   LineWrites(Dedent(st, Indent(lines[0])), body), Writes(st', lines[1..]));
      }
    }
  }

  /** Fields are written only in maps that are on the stack, or are written themselves. */
  lemma {:induction false} WrittenThroughStack(st: State, lines: seq<string>, q: Path)
    requires q in Writes(st, lines) && q != [] && q[|q| - 1].Field?
    ensures To(Parent(q)) in st.stack || Parent(q) in Writes(st, lines)
    decreases |lines|
  {
    var body := Trim(lines[0]);
    if Skipped(body) {
      WrittenThroughStack(st, lines[1..], q);
    } else {
      var level := Dedent(st, Indent(lines[0]));
      DedentKeepsData(st, Indent(lines[0]));
      if q in LineWrites(level, body) {
        WrittenHere(level, body, q);
      } else {
        var st' := Step(st, Indent(lines[0]), body, NextIsItem(lines[1..])).value;
        StepWrites(st, Indent(lines[0]), body, NextIsItem(lines[1..]), st');
        WrittenThroughStack(st', lines[1..], q);
      }
    }
  }

  lemma WrittenHere(level: State, body: string, q: Path)
    requires body != "" && q in LineWrites(level, body) && q != [] && q[|q| - 1].Field?
    ensures To(Parent(q)) in level.stack || Parent(q) in LineWrites(level, body)
  {
    if body[0] != '-' {
      var path := level.stack[|level.stack| - 1].path;
      assert q == path + [Field(Key(body))] && Parent(q) == path;
    } else {
      var last := level.arrays[|level.arrays| - 1];
      var element := last.path + [Elem(last.key, Length(level.data, last.path, last.key))];
      assert q == element + [Field(Key(Trim(body[1..])))] && Parent(q) == element;
    }
  }
}
