/** The reader object: parsing a file by loops over its lines, and typed access to the result. */
module YamlReader {
  import opened Prelude
  import opened Yaml

  datatype AccessError = KeyNotFound(key: string) | TypeMismatch(key: string)

  type Access<+T> = Result<T, AccessError>

  /** The integer under a key. */
  function GetInt(obj: Obj, key: string): Access<nat> {
    if key !in obj then Err(KeyNotFound(key))
    else if obj[key].Number? then Ok(obj[key].number)
    else Err(TypeMismatch(key))
  }

  /** One pair of enclosing double quotes is taken off; a lone quote is its own pair. */
  function Unquote(s: string): string {
    if s != "" && s[0] == '"' && s[|s| - 1] == '"' then (if |s| == 1 then "" else s[1..|s| - 1]) else s
  }

  /** The string under a key, unquoted. */
  function GetString(obj: Obj, key: string): Access<string> {
    if key !in obj then Err(KeyNotFound(key))
    else if obj[key].Str? then Ok(Unquote(obj[key].str))
    else Err(TypeMismatch(key))
  }

  /** getArray: a block array gives its maps, an inline array one map per element under "value". */
  function GetArray(obj: Obj, key: string): Access<seq<Obj>> {
    if key !in obj then Err(KeyNotFound(key))
    else match obj[key]
      case Items(items) => Ok(items)
      case List(elems) => Ok(seq(|elems|, i requires 0 <= i < |elems| => map["value" := Str(elems[i])]))
      case _ => Err(TypeMismatch(key))
  }

  /** The loop that counts leading spaces. */
  method CountIndent(line: string) returns (count: nat)
    ensures count == Indent(line)
  {
    count := 0;
    while count < |line| && line[count] == ' '
      invariant count <= |line| && Indent(line) == count + Indent(line[count..])
      decreases |line| - count
    {
      assert line[count..][1..] == line[count + 1..];
      count := count + 1;
    }
  }

  /** The lookahead loop: skips blank and comment lines. */
  method LookAhead(lines: seq<string>, from: nat) returns (isArray: bool)
    requires from <= |lines|
    ensures isArray == NextIsItem(lines[from..])
  {
    var j := from;
    isArray := false;
    while j < |lines|
      invariant from <= j <= |lines| && !isArray && NextIsItem(lines[from..]) == NextIsItem(lines[j..])
      decreases |lines| - j
    {
      assert lines[j..][0] == lines[j] && lines[j..][1..] == lines[j + 1..];
      var next := Trim(lines[j]);
      if !Skipped(next) {
        return next[0] == '-';
      }
      j := j + 1;
    }
  }

  /** The loop that leaves nested levels. */
  method LeaveLevels(start: State, indent: nat) returns (st: State)
    ensures st == Dedent(start, indent)
  {
    st := start;
    while indent < st.previous
      invariant Dedent(st, indent) == Dedent(start, indent)
      decreases st.previous - indent
    {
      ghost var before := st;
      while st.indents != [] && indent < st.indents[|st.indents| - 1] && st.arrays != []
        invariant PopArrays(st, indent) == PopArrays(before, indent)
        invariant st.stack == before.stack && st.previous == before.previous
        decreases |st.indents|
      {
        st := st.(arrays := st.arrays[..|st.arrays| - 1], indents := st.indents[..|st.indents| - 1]);
      }
      if |st.stack| > 1 {
        st := st.(stack := st.stack[..|st.stack| - 1]);
      }
      st := st.(previous := st.previous - 2);
    }
  }

  class YamlReader {
    var data: Obj

    constructor ()
      ensures data == map[]
    {
      data := map[];
    }

    /** parseFile. A file that cannot be opened leaves the data empty and throws nothing. */
    method ParseFile(file: Option<seq<string>>) returns (thrown: Option<Error>)
      requires data == map[]
      modifies this
      ensures file.None? ==> thrown == None && data == map[]
      ensures file.Some? ==>
        match Parse(file.value)
        case Ok(tree) => thrown == None && data == tree
        case Err(error) => thrown == Some(error)
    {
      if file.None? { return None; }
      var lines := file.value;
      var st, i := START, 0;
      while i < |lines|
        invariant i <= |lines| && ParseFrom(st, lines[i..]) == Parse(lines)
      {
        assert lines[i..][0] == lines[i] && lines[i..][1..] == lines[i + 1..];
        var line := lines[i];
        i := i + 1;
        var currentIndent := CountIndent(line);
        var body := Trim(line);
        if Skipped(body) { continue; }
        st := LeaveLevels(st, currentIndent);
        var stepped;
        if body[0] == '-' {
          stepped := ItemLine(st, currentIndent, body);
        } else {
          var isArray := false;
          if After(body) == "" {
            isArray := LookAhead(lines, i);
          }
          stepped := FieldLine(st, currentIndent, body, isArray);
        }
        if stepped.Err? {
          return Some(stepped.error);
        }
        st := stepped.value;
      }
      data := st.data;
      return None;
    }
  }
}
