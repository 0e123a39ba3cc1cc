/**
  The configuration reader of Core/mstd/yaml.hpp on a file given as its lines.

  A pointer to a map inside the tree is the path to it. A pointer is `Dangling` once what it pointed
  to has been destroyed: the slot was assigned again, or the array it points into has grown (an
  append is taken to move the elements, as the language allows). Using one is an error here.
*/
module Yaml {
  import opened Prelude
  import opened Text

  type Obj = map<string, Value>

  datatype Value =
    | Flag(flag: bool)
    | Number(number: nat)
    | Real(text: string)       // a string that stod accepts, kept as written
    | Str(str: string)
    | Map(obj: Obj)
    | Items(items: seq<Obj>)   // a block array of maps
    | List(elems: seq<string>) // an inline array

  datatype Error =
    | ItemWithoutParent
    | InvalidItem(item: string)
    | InvalidLine(line: string)
    | OutOfRange(text: string)
    | NotANumber(text: string)
    | UndefinedBehaviour

  type Outcome<+T> = Result<T, Error>

  // ----- Pointers into the tree -----

  datatype Hop = Field(key: string) | Elem(key: string, i: nat)

  type Path = seq<Hop>

  datatype Ptr = To(path: Path) | Dangling

  /** A pointer to the array stored under `key` in the map at `path`. */
  datatype ArrayPtr = ToArray(path: Path, key: string) | DanglingArray

  function Find(root: Obj, path: Path): Option<Obj>
    decreases |path|
  {
    if path == [] then Some(root)
    else
      var hop := path[0];
      if hop.key !in root then None
      else match (hop, root[hop.key])
        case (Field(_), Map(obj)) => Find(obj, path[1..])
        case (Elem(_, i), Items(items)) => if i < |items| then Find(items[i], path[1..]) else None
        case _ => None
  }

  /** The tree with the map at `path` replaced; a path that leads nowhere changes nothing. */
  function Store(root: Obj, path: Path, obj: Obj): Obj
    decreases |path|
  {
    if path == [] then obj
    else
      var hop := path[0];
      if hop.key !in root then root
      else match (hop, root[hop.key])
        case (Field(k), Map(inner)) => root[k := Map(Store(inner, path[1..], obj))]
        case (Elem(k, i), Items(items)) =>
          if i < |items| then root[k := Items(items[i := Store(items[i], path[1..], obj)])] else root
        case _ => root
  }

  /** `path` leads into what is stored under `key` of the map at `owner`. */
  predicate Into(path: Path, owner: Path, key: string) {
    |path| > |owner| && owner == path[..|owner|] && path[|owner|].key == key
  }

  // ----- The parser's state -----

  datatype State = State(
    data: Obj,
    stack: seq<Ptr>,
    arrays: seq<ArrayPtr>,
    indents: seq<int>,
    previous: int)

  const START := State(map[], [To([])], [], [], 0)

  /** What the slot `key` of the map at `owner` held is gone, and pointers into it with it. */
  function Invalidate(st: State, owner: Path, key: string): State {
    st.(stack := seq(|st.stack|, i requires 0 <= i < |st.stack| =>
                   if st.stack[i].To? && Into(st.stack[i].path, owner, key) then Dangling else st.stack[i]),
        arrays := seq(|st.arrays|, i requires 0 <= i < |st.arrays| =>
                   if st.arrays[i].ToArray? &&
                      (Into(st.arrays[i].path, owner, key) || (st.arrays[i].path == owner && st.arrays[i].key == key))
                   then DanglingArray else st.arrays[i]))
  }

  /** The map the innermost stack entry points to. */
  function Top(st: State): Option<Obj> {
    if st.stack == [] || st.stack[|st.stack| - 1].Dangling? then None
    else Find(st.data, st.stack[|st.stack| - 1].path)
  }

  /** The field `key` of the map on top of the stack is assigned. */
  function Assign(st: State, key: string, value: Value): Outcome<State> {
    match Top(st)
    case None => Err(UndefinedBehaviour)
    case Some(obj) =>
      var path := if st.stack != [] && st.stack[|st.stack| - 1].To? then st.stack[|st.stack| - 1].path else [];
      Ok(Invalidate(st, path, key).(data := Store(st.data, path, obj[key := value])))
  }

  /** A scalar is added to the map on top; a key already present keeps its value. */
  function Emplace(st: State, key: string, value: Value): Outcome<State> {
    match Top(st)
    case None => Err(UndefinedBehaviour)
    case Some(obj) => if key in obj then Ok(st) else Assign(st, key, value)
  }

  /** A pointer to the map just stored under `key` of the map on top goes on the stack. */
  function PushField(st: State, key: string): State {
    if st.stack != [] && st.stack[|st.stack| - 1].To?
    then st.(stack := st.stack + [To(st.stack[|st.stack| - 1].path + [Field(key)])])
    else st.(stack := st.stack + [Dangling])
  }

  /** A pointer to the array just stored under `key` goes on the stack of arrays. */
  function PushArray(st: State, key: string, indent: int): State {
    if st.stack != [] && st.stack[|st.stack| - 1].To?
    then st.(arrays := st.arrays + [ToArray(st.stack[|st.stack| - 1].path, key)], indents := st.indents + [indent])
    else st.(arrays := st.arrays + [DanglingArray], indents := st.indents + [indent])
  }

  /** The innermost array grows by an empty element, and a pointer to it goes on the stack. */
  function PushItem(st: State): Outcome<State> {
    if st.arrays == [] then Err(ItemWithoutParent)
    else match st.arrays[|st.arrays| - 1]
      case DanglingArray => Err(UndefinedBehaviour)
      case ToArray(path, key) =>
        match Find(st.data, path)
        case None => Err(UndefinedBehaviour)
        case Some(obj) =>
          if key in obj && obj[key].Items? then
            var items := obj[key].items;
            var moved := seq(|st.stack|, i requires 0 <= i < |st.stack| =>
              if st.stack[i].To? && Into(st.stack[i].path, path, key) then Dangling else st.stack[i]);
            var arrays := seq(|st.arrays|, i requires 0 <= i < |st.arrays| =>
              if st.arrays[i].ToArray? && Into(st.arrays[i].path, path, key) then DanglingArray else st.arrays[i]);
            Ok(st.(data := Store(st.data, path, obj[key := Items(items + [map[]])]),
                   stack := moved + [To(path + [Elem(key, |items|)])], arrays := arrays))
          else Err(UndefinedBehaviour)
  }

  // ----- Lines -----

  const BLANKS := " \t\n\r"

  /** A string without the blanks at its ends. */
  function Trim(s: string): string {
    StripRight(StripLeft(s, BLANKS), BLANKS)
  }

  function Indent(line: string): nat {
    if line != [] && line[0] == ' ' then 1 + Indent(line[1..]) else 0
  }

  predicate Skipped(body: string) {
    body == "" || body[0] == '#'
  }

  /** The next line that is not skipped starts with '-'. */
  predicate NextIsItem(lines: seq<string>) {
    lines != [] &&
    var body := Trim(lines[0]);
    if Skipped(body) then NextIsItem(lines[1..]) else body[0] == '-'
  }

  // ----- Scalars -----

  predicate IsBracketed(s: string) {
    |s| > 1 && s[0] == '[' && s[|s| - 1] == ']'
  }

  /** The trimmed, non-empty parts of a comma-separated text. */
  function ListElements(text: string): seq<string>
    decreases |text|
  {
    match NextLine(text, ',')
    case None => []
    case Some((part, rest)) => (if Trim(part) == "" then [] else [Trim(part)]) + ListElements(rest)
  }

  const MAX_INT := 0x7fff_ffff

  /** stod converts the longest numeric prefix; it needs at least one digit in it. */
  predicate StodAccepts(s: string) {
    s != [] && (s[0] in DIGITS || (|s| > 1 && s[0] == '.' && s[1] in DIGITS))
  }

  function ReadScalar(text: string): Outcome<Value> {
    if text == "true" || text == "false" then Ok(Flag(text == "true"))
    else if AllIn(text, DIGITS) then
      if FromDecimal(text) <= MAX_INT then Ok(Number(FromDecimal(text))) else Err(OutOfRange(text))
    else if AllIn(text, DIGITS + ".") then
      if StodAccepts(text) then Ok(Real(text)) else Err(NotANumber(text))
    else Ok(Str(text))
  }

  // ----- One line -----

  function PopArrays(st: State, indent: int): State
    decreases |st.indents|
  {
    if st.indents != [] && indent < st.indents[|st.indents| - 1] && st.arrays != [] then
      PopArrays(st.(arrays := st.arrays[..|st.arrays| - 1], indents := st.indents[..|st.indents| - 1]), indent)
    else st
  }

  /** Leaving nested levels: one stack entry per two columns, the root excepted. */
  function Dedent(st: State, indent: int): State
    decreases st.previous - indent
  {
    if indent >= st.previous then st
    else
      var popped := PopArrays(st, indent);
      var stack := if |popped.stack| > 1 then popped.stack[..|popped.stack| - 1] else popped.stack;
      Dedent(popped.(stack := stack, previous := st.previous - 2), indent)
  }

  function Key(body: string): string {
    Trim(body[..IndexOf(body, ':')])
  }

  function After(body: string): string {
    if IndexOf(body, ':') == |body| then "" else Trim(body[IndexOf(body, ':') + 1..])
  }

  function ItemLine(st: State, indent: nat, body: string): Outcome<State>
    requires body != ""
  {
    var item := Trim(body[1..]);
    match PushItem(st)
    case Err(e) => Err(e)
    case Ok(pushed) =>
      if item == "" then Ok(pushed.(previous := indent))
      else if IndexOf(item, ':') == |item| then Err(InvalidItem(item))
      else
        var key, value := Key(item), After(item);
        match Assign(pushed, key, if value == "" then Map(map[]) else Str(value))
        case Err(e) => Err(e)
        case Ok(st') => Ok((if value == "" then PushField(st', key) else st').(previous := indent))
  }

  function FieldLine(st: State, indent: nat, body: string, arrayFollows: bool): Outcome<State> {
    if IndexOf(body, ':') == |body| then Err(InvalidLine(body))
    else
      var key, value := Key(body), After(body);
      if value == "" then
        match Assign(st, key, if arrayFollows then Items([]) else Map(map[]))
        case Err(e) => Err(e)
        case Ok(st') =>
          Ok((if arrayFollows then PushArray(st', key, indent + 2) else PushField(st', key)).(previous := indent))
      else if IsBracketed(value) then
        match Assign(st, key, List(ListElements(value[1..|value| - 1])))
        case Err(e) => Err(e)
        case Ok(st') => Ok(st'.(previous := indent))
      else
        match ReadScalar(value)
        case Err(e) => Err(e)
        case Ok(scalar) =>
          match Emplace(st, key, scalar)
          case Err(e) => Err(e)
          case Ok(st') => Ok(st'.(previous := indent))
  }

  /** A line that is not skipped, with what follows it for the one-line lookahead. */
  function Step(st: State, indent: nat, body: string, arrayFollows: bool): Outcome<State>
    requires body != ""
  {
    var level := Dedent(st, indent);
    if body[0] == '-' then ItemLine(level, indent, body) else FieldLine(level, indent, body, arrayFollows)
  }

  function ParseFrom(st: State, lines: seq<string>): Outcome<Obj>
    decreases |lines|
  {
    if lines == [] then Ok(st.data)
    else
      var body := Trim(lines[0]);
      if Skipped(body) then ParseFrom(st, lines[1..])
      else match Step(st, Indent(lines[0]), body, NextIsItem(lines[1..]))
        case Err(e) => Err(e)
        case Ok(st') => ParseFrom(st', lines[1..])
  }

  function Parse(lines: seq<string>): Outcome<Obj> {
    ParseFrom(START, lines)
  }
}
