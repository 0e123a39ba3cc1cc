/** Blank and comment lines mean nothing, wherever they stand. */
module YamlNoise {
  import opened Text
  import opened Yaml

  /** There is a '#' at `i`, and only blanks before it. */
  predicate CommentAt(line: string, i: int) {
    0 <= i < |line| && line[i] == '#' && AllIn(line[..i], " \t\n\r")
  }

  /** A line of blanks, or a comment. */
  ghost predicate IsNoise(line: string) {
    AllIn(line, " \t\n\r") || exists i :: CommentAt(line, i)
  }

  lemma {:induction false} LeftEnd(line: string) returns (n: nat)
    ensures n <= |line| && StripLeft(line, " \t\n\r") == line[n..] && AllIn(line[..n], " \t\n\r")
    ensures n < |line| ==> line[n] !in " \t\n\r"
  {
    n := 0;
    if line != [] && line[0] in " \t\n\r" {
      var k := LeftEnd(line[1..]);
      n := k + 1;
      assert line[..n] == [line[0]] + line[1..][..k];
    }
  }

  lemma {:induction false} RightEnd(line: string) returns (n: nat)
    ensures n <= |line| && StripRight(line, " \t\n\r") == line[..n] && AllIn(line[n..], " \t\n\r")
    ensures n > 0 ==> line[n - 1] !in " \t\n\r"
    ensures line != "" && line[0] !in " \t\n\r" ==> n > 0
  {
    n := |line|;
    if line != [] && line[|line| - 1] in " \t\n\r" {
      n := RightEnd(line[..|line| - 1]);
      assert line[..|line| - 1][..n] == line[..n];
      assert line[n..] == line[..|line| - 1][n..] + [line[|line| - 1]];
    }
  }

  lemma BlanksBefore(line: string, n: nat)
    requires n <= |line| && AllIn(line[..n], " \t\n\r")
    ensures forall k :: 0 <= k < n ==> line[k] in " \t\n\r"
  {
    assert forall k :: 0 <= k < n ==> line[k] == line[..n][k];
  }

  /** What the reader skips is exactly that. */
  lemma {:induction false} NoiseIff(line: string)
    ensures Skipped(Trim(line)) <==> IsNoise(line)
  {
    var n := LeftEnd(line);
    var rest := line[n..];
    var m := RightEnd(rest);
    if n < |line| {
      assert rest[0] == line[n];
      assert Trim(line)[0] == line[n];
      if line[n] == '#' { assert CommentAt(line, n); }
      BlanksBefore(line, n);
      forall i | CommentAt(line, i) ensures i == n { BlanksBefore(line, i); }
    } else {
      assert line[..n] == line;
    }
  }

  /** The lines that are neither blank nor comments. */
  ghost function Significant(lines: seq<string>): seq<string> {
    if lines == [] then []
    else if IsNoise(lines[0]) then Significant(lines[1..])
    else [lines[0]] + Significant(lines[1..])
  }

  lemma {:induction false} LookAheadSkipsNoise(lines: seq<string>)
    ensures NextIsItem(lines) == NextIsItem(Significant(lines))
  {
    if lines != [] {
      NoiseIff(lines[0]);
      LookAheadSkipsNoise(lines[1..]);
    }
  }

  lemma {:induction false} ParseSkipsNoise(st: State, lines: seq<string>)
    ensures ParseFrom(st, lines) == ParseFrom(st, Significant(lines))
    decreases |lines|
  {
    if lines != [] {
      var body := Trim(lines[0]);
      NoiseIff(lines[0]);
      if Skipped(body) {
        ParseSkipsNoise(st, lines[1..]);
      } else {
        LookAheadSkipsNoise(lines[1..]);
        assert Significant(lines)[1..] == Significant(lines[1..]);
        var next := Step(st, Indent(lines[0]), body, NextIsItem(lines[1..]));
        if next.Ok? { ParseSkipsNoise(next.value, lines[1..]); }
      }
    }
  }

  lemma {:induction false} SignificantConcat(xs: seq<string>, ys: seq<string>)
    ensures Significant(xs + ys) == Significant(xs) + Significant(ys)
  {
    if xs == [] {
      assert xs + ys == ys;
    } else {
      assert (xs + ys)[1..] == xs[1..] + ys;
      SignificantConcat(xs[1..], ys);
    }
  }

  /** Two files that differ only in blank and comment lines have the same outcome, be it a tree or
      an error. */
  lemma {:induction false} NoiseIsIrrelevant(xs: seq<string>, ys: seq<string>)
    requires Significant(xs) == Significant(ys)
    ensures Parse(xs) == Parse(ys)
  {
    ParseSkipsNoise(START, xs);
    ParseSkipsNoise(START, ys);
  }

  /** Inserting such lines anywhere, or deleting them, changes nothing. */
  lemma InsertingNoise(before: seq<string>, noise: seq<string>, after: seq<string>)
    requires forall i :: 0 <= i < |noise| ==> IsNoise(noise[i])
    ensures Parse(before + noise + after) == Parse(before + after)
  {
    OnlyNoise(noise);
    SignificantConcat(before + noise, after);
    SignificantConcat(before, noise);
    SignificantConcat(before, after);
    NoiseIsIrrelevant(before + noise + after, before + after);
  }

  lemma {:induction false} OnlyNoise(noise: seq<string>)
    requires forall i :: 0 <= i < |noise| ==> IsNoise(noise[i])
    ensures Significant(noise) == []
  {
    if noise != [] { OnlyNoise(noise[1..]); }
  }

  // ----- Blanks at the end of a line -----

  lemma {:induction false} StripRightMore(s: string, pad: string)
    requires AllIn(pad, " \t\n\r")
    ensures StripRight(s + pad, " \t\n\r") == StripRight(s, " \t\n\r")
    decreases |pad|
  {
    if pad == [] {
      assert s + pad == s;
    } else {
      assert (s + pad)[..|s + pad| - 1] == s + pad[..|pad| - 1];
      StripRightMore(s, pad[..|pad| - 1]);
    }
  }

  lemma {:induction false} StripLeftKeepsEnd(s: string, pad: string)
    requires !AllIn(s, " \t\n\r")
    ensures StripLeft(s + pad, " \t\n\r") == StripLeft(s, " \t\n\r") + pad
    ensures Indent(s + pad) == Indent(s)
    decreases |s|
  {
    assert (s + pad)[0] == s[0] && (s + pad)[1..] == s[1..] + pad;
    if s[0] in " \t\n\r" { StripLeftKeepsEnd(s[1..], pad); }
  }

  lemma {:induction false} PaddedLineIsTheSame(line: string, pad: string)
    requires AllIn(pad, " \t\n\r")
    ensures Trim(line + pad) == Trim(line) && (!AllIn(line, " \t\n\r") ==> Indent(line + pad) == Indent(line))
  {
    if AllIn(line, " \t\n\r") {
      AllBlank(line);
      AllBlank(line + pad);
    } else {
      StripLeftKeepsEnd(line, pad);
      StripRightMore(StripLeft(line, " \t\n\r"), pad);
    }
  }

  lemma {:induction false} AllBlank(s: string)
    requires AllIn(s, " \t\n\r")
    ensures Trim(s) == ""
  {
    StripLeftPadding(s, "", " \t\n\r");
    assert s + "" == s;
  }

  /** Blanks at the end of a line change nothing. */
  lemma {:induction false} TrailingBlanksAreIgnored(st: State, before: seq<string>, line: string, pad: string,
                                                    after: seq<string>)
    requires AllIn(pad, " \t\n\r")
    ensures ParseFrom(st, before + [line + pad] + after) == ParseFrom(st, before + [line] + after)
    ensures NextIsItem(before + [line + pad] + after) == NextIsItem(before + [line] + after)
    decreases |before|
  {
    var xs, ys := before + [line + pad] + after, before + [line] + after;
    if before == [] {
      assert xs[0] == line + pad && xs[1..] == after && ys[0] == line && ys[1..] == after;
      PaddedLineIsTheSame(line, pad);
      if AllIn(line, " \t\n\r") { AllBlank(line); }
    } else {
      assert xs[0] == before[0] && xs[1..] == before[1..] + [line + pad] + after;
      assert ys[0] == before[0] && ys[1..] == before[1..] + [line] + after;
      TrailingBlanksAreIgnored(st, before[1..], line, pad, after);
      var body := Trim(before[0]);
      if !Skipped(body) {
        var next := Step(st, Indent(before[0]), body, NextIsItem(ys[1..]));
        if next.Ok? { TrailingBlanksAreIgnored(next.value, before[1..], line, pad, after); }
      }
    }
  }
}
