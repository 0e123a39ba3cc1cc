/** Printing a response and parsing header fields (Core/protocols/http.hpp). */
module Http {
  import opened Prelude
  import opened Text

  type Headers = map<string, string>

  const CRLF := "\r\n"

  // ----- The header of a response -----

  datatype Field = Field(name: string, data: string)

  function PrintField(f: Field): string {
    f.name + ": " + f.data + CRLF
  }

  function StatusLine(version: string, status: nat, reason: string): string {
    version + " " + ToDecimal(status) + " " + reason
  }

  /** send_http_response's header text: a content type if there is one, the server, the length of
      the body, keep-alive if asked for, and the blank line. */
  function PrintHead(version: string, status: nat, reason: string, mime: string, length: nat, keepAlive: bool): string {
    StatusLine(version, status, reason) + CRLF
    + (if mime != "" then PrintField(Field("Content-Type", mime)) else "")
    + PrintField(Field("Server", "SOK"))
    + PrintField(Field("Content-Length", ToDecimal(length)))
    + (if keepAlive then PrintField(Field("Connection", "keep-alive")) else "")
    + CRLF
  }

  // ----- parse_headers -----

  const LEADING := " \t"
  const TRAILING := " \t\r"

  function Tidy(s: string): string {
    StripRight(StripLeft(s, LEADING), TRAILING)
  }

  function AddLine(headers: Headers, line: string): Headers {
    var pos := IndexOf(line, ':');
    if pos == |line| then headers else headers[Tidy(line[..pos]) := Tidy(line[pos + 1..])]
  }

  /** The fields read up to the first line that is a lone CR, and the unread rest. */
  function ParseFrom(stream: string, headers: Headers): (Headers, string)
    decreases |stream|
  {
    match NextLine(stream, '\n')
    case None => (headers, [])
    case Some((line, rest)) =>
      if line == "\r" then (headers, rest) else ParseFrom(rest, AddLine(headers, line))
  }

  method ParseHeaders(stream: string) returns (headers: Headers, rest: string)
    ensures (headers, rest) == ParseFrom(stream, map[])
  {
    headers, rest := map[], stream;
    var next := NextLine(rest, '\n');
    while next.Some? && next.value.0 != "\r"
      invariant next == NextLine(rest, '\n')
      invariant ParseFrom(rest, headers) == ParseFrom(stream, map[])
      decreases |rest|
    {
      var line := next.value.0;
      ghost var added := AddLine(headers, line);
      assert ParseFrom(rest, headers) == ParseFrom(next.value.1, added);
      rest := next.value.1;
      var pos := IndexOf(line, ':');
      if pos < |line| {
        var key, value := line[..pos], line[pos + 1..];
        key := StripRight(StripLeft(key, LEADING), TRAILING);
        value := StripRight(StripLeft(value, LEADING), TRAILING);
        headers := headers[key := value];
      }
      assert headers == added;
      next := NextLine(rest, '\n');
    }
    rest := if next.Some? then next.value.1 else [];
  }

  // ----- Writing a response -----

  /** What one write or sendfile call returns: a byte count, or -1 with EAGAIN, EPIPE or another errno. */
  datatype WriteResult = Wrote(n: nat) | WouldBlock | PeerClosed | Failed

  /** Where the bytes of a body come from: the string itself or, with a file path, the file there. That
      file is opened again: it may be gone, and it may have changed since its length was printed. */
  datatype Source = Memory | Unreadable | Disk(content: string)

  function Least(a: nat, b: nat): nat {
    if a <= b then a else b
  }

  /** The bytes of `text` that a write accepts. */
  function Accepted(result: WriteResult, text: string): nat {
    if result.Wrote? then Least(result.n, |text|) else 0
  }

  /** How much the loop sends of `remain` bytes from a source with `left` bytes left: each call adds its
      count, an error ends it. */
  function Sent(remain: nat, left: nat, writes: seq<WriteResult>): (n: nat)
    ensures n <= remain && n <= left
    decreases |writes|
  {
    if remain == 0 || writes == [] || !writes[0].Wrote? then 0
    else
      var k := Least(writes[0].n, Least(remain, left));
      k + Sent(remain - k, left - k, writes[1..])
  }

  /** The error that ends the loop, if one does. */
  function EndsWith(remain: nat, left: nat, writes: seq<WriteResult>): Option<WriteResult>
    decreases |writes|
  {
    if remain == 0 || writes == [] then None
    else if !writes[0].Wrote? then Some(writes[0])
    else
      var k := Least(writes[0].n, Least(remain, left));
      EndsWith(remain - k, left - k, writes[1..])
  }

  /** The bytes there are to be sent. */
  function Bytes(body: string, source: Source): string {
    match source
    case Memory => body
    case Unreadable => ""
    case Disk(content) => content
  }

  /** What is sent of the body of a GET. */
  function SentBody(body: string, source: Source, writes: seq<WriteResult>): string {
    if source.Unreadable? then "" else Bytes(body, source)[..Sent(|body|, |Bytes(body, source)|, writes)]
  }

  /** What reaches the socket. The header is written once; what does not fit is not tried again, and the
      body follows all the same. Only the answer to a GET has its body sent, whatever length its header
      states: the answer to a POST, too, ends with its header. */
  function Wire(head: string, body: string, isGet: bool, source: Source, headWrite: WriteResult,
                writes: seq<WriteResult>): string {
    if headWrite.PeerClosed? || headWrite.Failed? then ""
    else head[..Accepted(headWrite, head)] + if isGet then SentBody(body, source, writes) else ""
  }

  /** The loop over the body wants another answer of the kernel. */
  predicate StillSending(body: string, source: Source, writes: seq<WriteResult>) {
    !source.Unreadable? && Sent(|body|, |Bytes(body, source)|, writes) < |body| &&
    EndsWith(|body|, |Bytes(body, source)|, writes).None?
  }

  /** The loop over a body in memory: from `text`, write until all is written or a call fails. */
  method WriteBody(text: string, writes: seq<WriteResult>) returns (sent: nat, error: Option<WriteResult>)
    ensures sent == Sent(|text|, |text|, writes) && error == EndsWith(|text|, |text|, writes)
  {
    sent, error := 0, None;
    var i: nat := 0;
    while sent < |text| && i < |writes|
      invariant sent <= |text| && i <= |writes|
      invariant Sent(|text|, |text|, writes) == sent + Sent(|text| - sent, |text| - sent, writes[i..])
      invariant EndsWith(|text|, |text|, writes) == EndsWith(|text| - sent, |text| - sent, writes[i..])
      decreases |writes| - i
    {
      assert writes[i..][0] == writes[i] && writes[i..][1..] == writes[i + 1..];
      if !writes[i].Wrote? {
        error := Some(writes[i]);
        return;
      }
      sent := sent + Least(writes[i].n, |text| - sent);
      i := i + 1;
    }
  }

  /** The sendfile loop: from the file's start, `remain` bytes or until a call fails. At the end of the
      file sendfile sends nothing, and does not fail. */
  method SendFile(content: string, length: nat, sends: seq<WriteResult>)
    returns (offset: nat, error: Option<WriteResult>)
    ensures offset == Sent(length, |content|, sends) && error == EndsWith(length, |content|, sends)
  {
    offset, error := 0, None;
    var remain: nat, i: nat := length, 0;
    while remain > 0 && i < |sends|
      invariant offset <= |content| && i <= |sends| && remain + offset == length
      invariant Sent(length, |content|, sends) == offset + Sent(remain, |content| - offset, sends[i..])
      invariant EndsWith(length, |content|, sends) == EndsWith(remain, |content| - offset, sends[i..])
      decreases |sends| - i
    {
      assert sends[i..][0] == sends[i] && sends[i..][1..] == sends[i + 1..];
      if !sends[i].Wrote? {
        error := Some(sends[i]);
        return;
      }
      var sent := Least(sends[i].n, Least(remain, |content| - offset));
      offset, remain := offset + sent, remain - sent;
      i := i + 1;
    }
  }

  /** send_http_response. `headWrite` and `writes` are the kernel's answers; `returned` is false when the
      call wants more of them. A broken pipe is noticed in the header, and in a body from memory. */
  method SendResponse(head: string, body: string, isGet: bool, source: Source, headWrite: WriteResult,
                      writes: seq<WriteResult>)
    returns (wire: string, brokenPipe: bool, returned: bool)
    ensures wire == Wire(head, body, isGet, source, headWrite, writes)
    ensures brokenPipe == (headWrite.PeerClosed? || headWrite.Failed? ||
                           (isGet && source.Memory? && EndsWith(|body|, |body|, writes) == Some(PeerClosed)))
    ensures !returned == (!headWrite.PeerClosed? && !headWrite.Failed? && isGet && StillSending(body, source, writes))
  {
    wire, brokenPipe, returned := "", false, true;
    if headWrite.PeerClosed? || headWrite.Failed? {
      return "", true, true;
    }
    wire := head[..Accepted(headWrite, head)];
    var sent, error := 0, None;
    if isGet && body != "" && !source.Memory? {
      if source.Disk? {
        sent, error := SendFile(source.content, |body|, writes);
        wire := wire + source.content[..sent];
        returned := error.Some? || sent == |body|;
      }
    } else if isGet && body != "" {
      sent, error := WriteBody(body, writes);
      wire := wire + body[..sent];
      brokenPipe := error == Some(PeerClosed);
      returned := error.Some? || sent == |body|;
    }
  }

  // ----- What a reader of the response gets back -----

  function PrintFields(fields: seq<Field>): string {
    if fields == [] then "" else PrintField(fields[0]) + PrintFields(fields[1..])
  }

  /** Later fields win, as in parse_headers. */
  function FieldMap(headers: Headers, fields: seq<Field>): Headers
    decreases |fields|
  {
    if fields == [] then headers else FieldMap(headers[fields[0].name := fields[0].data], fields[1..])
  }

  predicate Trimmed(s: string) {
    CleanLeft(s, " \t") && CleanRight(s, " \t\r")
  }

  /** A field name without colon, a value without line break, neither with blanks at its ends. */
  predicate WellFormed(f: Field) {
    Trimmed(f.name) && Trimmed(f.data) && ':' !in f.name && '\n' !in f.name && '\n' !in f.data
  }

  lemma TidyTrimmed(s: string)
    requires Trimmed(s)
    ensures Tidy(s) == s
  {
    StripLeftPadding("", s, LEADING);
    StripRightPadding(s, "", TRAILING);
    assert "" + s == s && s + "" == s;
  }

  lemma TidyValue(s: string)
    requires Trimmed(s)
    ensures Tidy(" " + (s + "\r")) == s
  {
    StripLeftPadding(" ", s + "\r", LEADING);
    StripRightPadding(s, "\r", TRAILING);
  }

  lemma LineRoundTrip(headers: Headers, f: Field)
    requires WellFormed(f)
    ensures AddLine(headers, f.name + ": " + f.data + "\r") == headers[f.name := f.data]
  {
    var line, tail := f.name + ": " + f.data + "\r", " " + (f.data + "\r");
    assert line == f.name + [':'] + tail;
    IndexAfter(f.name, ':', tail);
    assert line[..|f.name|] == f.name && line[|f.name| + 1..] == tail;
    TidyTrimmed(f.name);
    TidyValue(f.data);
  }

  lemma {:induction false} SuffixOfBlanks(s: string, blanks: string, chars: string)
    requires AllIn(s, chars)
    ensures AllIn(StripLeft(s, blanks), chars)
  {
    if s != [] && s[0] in blanks { SuffixOfBlanks(s[1..], blanks, chars); }
  }

  lemma TidyPadded(before: string, s: string, after: string)
    requires Trimmed(s) && AllIn(before, " \t") && AllIn(after, " \t\r")
    ensures Tidy(before + s + after) == s
  {
    if s == "" {
      var left := StripLeft(before + s + after, LEADING);
      SuffixOfBlanks(before + s + after, LEADING, " \t\r");
      StripRightPadding("", left, TRAILING);
      assert "" + left == left;
    } else {
      assert before + s + after == before + (s + after);
      StripLeftPadding(before, s + after, LEADING);
      StripRightPadding(s, after, TRAILING);
    }
  }

  /** A field line is read whatever blanks are around its name and its value. */
  lemma PaddedFieldIsRead(a: string, name: string, b: string, c: string, data: string, d: string, rest: string,
                          headers: Headers)
    requires WellFormed(Field(name, data))
    requires AllIn(a, " \t") && AllIn(b, " \t\r") && AllIn(c, " \t") && AllIn(d, " \t\r")
    ensures ParseFrom(a + name + b + ":" + c + data + d + "\n" + rest, headers) ==
            ParseFrom(rest, headers[name := data])
  {
    var before, after := a + name + b, c + data + d;
    var line := before + ":" + after;
    assert a + name + b + ":" + c + data + d + "\n" + rest == line + ['\n'] + rest;
    NextLineOf(line, '\n', rest);
    assert line[|before|] == ':' && line == before + [':'] + after;
    IndexAfter(before, ':', after);
    assert line[..|before|] == before && line[|before| + 1..] == after;
    TidyPadded(a, name, b);
    TidyPadded(c, data, d);
  }

  /** A line without a colon is no field, and does not end the header unless it is a lone CR. */
  lemma OtherLineIsSkipped(line: string, rest: string, headers: Headers)
    requires ':' !in line && '\n' !in line && line != "\r"
    ensures ParseFrom(line + "\n" + rest, headers) == ParseFrom(rest, headers)
  {
    assert line + "\n" + rest == line + ['\n'] + rest;
    NextLineOf(line, '\n', rest);
    NoIndex(line, ':');
  }

  /** Parsing any printed fields gives them back, and leaves exactly what follows the blank line. */
  lemma {:induction false} FieldsRoundTrip(fields: seq<Field>, rest: string, headers: Headers)
    requires forall i :: 0 <= i < |fields| ==> WellFormed(fields[i])
    ensures ParseFrom(PrintFields(fields) + CRLF + rest, headers) == (FieldMap(headers, fields), rest)
    decreases |fields|
  {
    if fields == [] {
      assert PrintFields(fields) + CRLF + rest == "\r" + ['\n'] + rest;
      NextLineOf("\r", '\n', rest);
    } else {
      var f := fields[0];
      var line := f.name + ": " + f.data + "\r";
      var more := PrintFields(fields[1..]) + CRLF + rest;
      assert PrintFields(fields) + CRLF + rest == line + ['\n'] + more;
      NextLineOf(line, '\n', more);
      assert line != "\r" by { assert line[|f.name|] == ':'; if |f.name| == 0 { assert line[0] == ':'; } }
      LineRoundTrip(headers, f);
      FieldsRoundTrip(fields[1..], rest, headers[f.name := f.data]);
    }
  }

  function When(present: bool, f: Field): seq<Field> {
    if present then [f] else []
  }

  /** The fields of a response. */
  function ResponseFields(mime: string, length: nat, keepAlive: bool): seq<Field> {
    When(mime != "", Field("Content-Type", mime)) +
    [Field("Server", "SOK"), Field("Content-Length", ToDecimal(length))] +
    When(keepAlive, Field("Connection", "keep-alive"))
  }

  predicate NoLineBreak(s: string) {
    '\r' !in s && '\n' !in s
  }

  lemma {:induction false} DigitsAreTame(n: nat)
    ensures Trimmed(ToDecimal(n)) && NoLineBreak(ToDecimal(n))
  {
    var s := ToDecimal(n);
    assert forall i :: 0 <= i < |s| ==> '0' <= s[i] <= '9';
  }

  lemma {:induction false} PrintFieldsConcat(xs: seq<Field>, ys: seq<Field>)
    ensures PrintFields(xs + ys) == PrintFields(xs) + PrintFields(ys)
    decreases |xs|
  {
    if xs == [] {
      assert xs + ys == ys;
    } else {
      assert (xs + ys)[1..] == xs[1..] + ys;
      PrintFieldsConcat(xs[1..], ys);
    }
  }

  lemma PrintWhen(present: bool, f: Field)
    ensures PrintFields(When(present, f)) == if present then PrintField(f) else ""
  {
    if present { assert [f][1..] == []; }
  }

  lemma PrintTwo(b: Field, c: Field)
    ensures PrintFields([b, c]) == PrintField(b) + PrintField(c)
  {
    assert [b, c] == [b] + [c];
    PrintFieldsConcat([b], [c]);
    PrintWhen(true, b);
    PrintWhen(true, c);
  }

  lemma PrintAround(optional: bool, a: Field, b: Field, c: Field, last: bool, d: Field)
    ensures PrintFields(When(optional, a) + [b, c] + When(last, d)) ==
            (if optional then PrintField(a) else "") + PrintField(b) + PrintField(c) +
              (if last then PrintField(d) else "")
  {
    var start, middle, end := When(optional, a), [b, c], When(last, d);
    PrintFieldsConcat(start + middle, end);
    PrintFieldsConcat(start, middle);
    PrintWhen(optional, a);
    PrintTwo(b, c);
    PrintWhen(last, d);
    assert PrintFields(start) + (PrintField(b) + PrintField(c)) == PrintFields(start) + PrintField(b) + PrintField(c);
  }

  /** The header text is a status line, the fields, and a blank line. */
  lemma HeadIsFields(version: string, status: nat, reason: string, mime: string, length: nat, keepAlive: bool)
    ensures PrintHead(version, status, reason, mime, length, keepAlive) ==
            StatusLine(version, status, reason) + CRLF + PrintFields(ResponseFields(mime, length, keepAlive)) + CRLF
  {
    PrintAround(mime != "", Field("Content-Type", mime), Field("Server", "SOK"),
                Field("Content-Length", ToDecimal(length)), keepAlive, Field("Connection", "keep-alive"));
    Regroup(StatusLine(version, status, reason) + CRLF, if mime != "" then PrintField(Field("Content-Type", mime))
      else "",
            PrintField(Field("Server", "SOK")), PrintField(Field("Content-Length", ToDecimal(length))),
            if keepAlive then PrintField(Field("Connection", "keep-alive")) else "", CRLF);
  }

  lemma Regroup(start: string, a: string, b: string, c: string, d: string, end: string)
    ensures start + a + b + c + d + end == start + (a + b + c + d) + end
  {
    assert start + a + b == start + (a + b);
    assert start + (a + b) + c == start + (a + b + c);
    assert start + (a + b + c) + d == start + (a + b + c + d);
  }

  lemma {:induction false} FieldMapConcat(headers: Headers, xs: seq<Field>, ys: seq<Field>)
    ensures FieldMap(headers, xs + ys) == FieldMap(FieldMap(headers, xs), ys)
    decreases |xs|
  {
    if xs == [] {
      assert xs + ys == ys;
    } else {
      assert (xs + ys)[1..] == xs[1..] + ys;
      FieldMapConcat(headers[xs[0].name := xs[0].data], xs[1..], ys);
    }
  }

  lemma {:induction false} FieldMapWhen(headers: Headers, present: bool, f: Field)
    ensures FieldMap(headers, When(present, f)) == if present then headers[f.name := f.data] else headers
  {
    if present { assert [f][1..] == []; }
  }

  lemma FieldMapAround(optional: bool, a: Field, b: Field, c: Field, last: bool, d: Field)
    ensures FieldMap(map[], When(optional, a) + [b, c] + When(last, d)) ==
            var h1: Headers := if optional then map[a.name := a.data] else map[];
            var h2 := h1[b.name := b.data][c.name := c.data];
            if last then h2[d.name := d.data] else h2
  {
    FieldMapConcat(map[], When(optional, a) + [b, c], When(last, d));
    FieldMapConcat(map[], When(optional, a), [b, c]);
    assert [b, c] == When(true, b) + When(true, c);
    var h1 := FieldMap(map[], When(optional, a));
    FieldMapConcat(h1, When(true, b), When(true, c));
    FieldMapWhen(map[], optional, a);
    FieldMapWhen(h1, true, b);
    FieldMapWhen(h1[b.name := b.data], true, c);
    FieldMapWhen(h1[b.name := b.data][c.name := c.data], last, d);
  }

  /** The parsed fields are exactly those of the response. */
  ghost predicate IsResponse(headers: Headers, mime: string, length: nat, keepAlive: bool) {
    headers.Keys == {"Server", "Content-Length"} + (if mime != "" then {"Content-Type"} else {})
                    + (if keepAlive then {"Connection"} else {}) &&
    headers["Server"] == "SOK" && FromDecimal(headers["Content-Length"]) == length &&
    (mime != "" ==> headers["Content-Type"] == mime) &&
    (keepAlive ==> headers["Connection"] == "keep-alive")
  }

  lemma ResponseFieldMap(mime: string, length: nat, keepAlive: bool)
    ensures IsResponse(FieldMap(map[], ResponseFields(mime, length, keepAlive)), mime, length, keepAlive)
  {
    FieldMapAround(mime != "", Field("Content-Type", mime), Field("Server", "SOK"),
                   Field("Content-Length", ToDecimal(length)), keepAlive, Field("Connection", "keep-alive"));
    DecimalRoundTrip(length);
    assert |"Server"| == 6 && |"Content-Length"| == 14 && |"Content-Type"| == 12 && |"Connection"| == 10;
  }

  ghost predicate Tame(f: Field) {
    NoLineBreak(f.name) && NoLineBreak(f.data)
  }

  /** Letters and hyphens only. */
  predicate Plain(s: string) {
    s != "" && forall i :: 0 <= i < |s| ==> 'a' <= s[i] <= 'z' || 'A' <= s[i] <= 'Z' || s[i] == '-'
  }

  lemma PlainIsFine(name: string, data: string)
    requires Plain(name)
    ensures NoLineBreak(data) ==> Tame(Field(name, data))
    ensures Trimmed(data) && '\n' !in data ==> WellFormed(Field(name, data))
    ensures NoLineBreak(name) && Trimmed(name)
  {
  }

  lemma FixedNamesArePlain()
    ensures Plain("Server") && Plain("SOK")
    ensures Plain("Connection") && Plain("keep-alive")
    ensures Plain("Content-Type") && Plain("Content-Length")
  {
  }

  /** Values without line breaks and without blanks at their ends make a well-formed, tame header. */
  lemma ResponseFieldsAreFine(mime: string, length: nat, keepAlive: bool)
    ensures Trimmed(mime) && '\n' !in mime ==>
      forall i :: 0 <= i < |ResponseFields(mime, length, keepAlive)| ==>
        WellFormed(ResponseFields(mime, length, keepAlive)[i])
    ensures NoLineBreak(mime) ==>
      forall i :: 0 <= i < |ResponseFields(mime, length, keepAlive)| ==>
        Tame(ResponseFields(mime, length, keepAlive)[i])
  {
    FixedNamesArePlain();
    DigitsAreTame(length);
    PlainIsFine("SOK", "");
    PlainIsFine("keep-alive", "");
    PlainIsFine("Server", "SOK");
    PlainIsFine("Connection", "keep-alive");
    PlainIsFine("Content-Type", mime);
    PlainIsFine("Content-Length", ToDecimal(length));
    FineAround(mime != "", Field("Content-Type", mime), Field("Server", "SOK"),
               Field("Content-Length", ToDecimal(length)), keepAlive, Field("Connection", "keep-alive"));
  }

  lemma FineAround(optional: bool, a: Field, b: Field, c: Field, last: bool, d: Field)
    ensures var fields := When(optional, a) + [b, c] + When(last, d);
            (WellFormed(a) && WellFormed(b) && WellFormed(c) && WellFormed(d) ==>
               forall i :: 0 <= i < |fields| ==> WellFormed(fields[i])) &&
            (Tame(a) && Tame(b) && Tame(c) && Tame(d) ==> forall i :: 0 <= i < |fields| ==> Tame(fields[i]))
  {
    var fields := When(optional, a) + [b, c] + When(last, d);
    assert forall i :: 0 <= i < |fields| ==> fields[i] == a || fields[i] == b || fields[i] == c || fields[i] == d;
  }

  /** A version, a decimal status and a reason, separated by single spaces. */
  ghost predicate IsStatusLine(line: string, version: string, status: nat, reason: string) {
    exists code: string ::
      line == version + " " + code + " " + reason && code != "" && AllIn(code, DIGITS) && FromDecimal(code) == status
  }

  /** Cut at its first two spaces, a status line gives back its parts. */
  lemma StatusLineSplits(line: string, version: string, status: nat, reason: string)
    requires IsStatusLine(line, version, status, reason) && ' ' !in version
    ensures var i := IndexOf(line, ' ');
            i < |line| && line[..i] == version &&
            var rest := line[i + 1..]; var j := IndexOf(rest, ' ');
            j < |rest| && FromDecimal(rest[..j]) == status && rest[j + 1..] == reason
  {
    var code: string :|
      line == version + " " + code + " " + reason && code != "" && AllIn(code, DIGITS) && FromDecimal(code) == status;
    var rest := code + " " + reason;
    assert line == version + " " + rest;
    CutAtSpace(version, rest);
    assert forall i :: 0 <= i < |code| ==> code[i] != ' ';
    CutAtSpace(code, reason);
  }

  lemma CutAtSpace(word: string, rest: string)
    requires ' ' !in word
    ensures var s := word + " " + rest;
            IndexOf(s, ' ') == |word| && |word| < |s| && s[..|word|] == word && s[|word| + 1..] == rest
  {
    assert word + " " + rest == word + [' '] + rest;
    IndexAfter(word, ' ', rest);
  }

  /** A reader cuts the status line at its first two spaces, parses the fields, and has read the version,
      the status code and the content length as numbers, the reason and each field; it is left with
      exactly the body. */
  lemma ResponseRoundTrip(version: string, status: nat, reason: string, mime: string, body: string, keepAlive: bool)
    requires NoLineBreak(version) && NoLineBreak(reason) && Trimmed(mime) && '\n' !in mime
    ensures var text := PrintHead(version, status, reason, mime, |body|, keepAlive) + body;
            NextLine(text, '\n').Some? &&
            var (headers, rest) := ParseFrom(NextLine(text, '\n').value.1, map[]);
            rest == body && IsResponse(headers, mime, |body|, keepAlive)
    ensures ' ' !in version ==>
              var line := NextLine(PrintHead(version, status, reason, mime, |body|, keepAlive) + body, '\n').value.0;
              var i := IndexOf(line, ' ');
              i < |line| && line[..i] == version &&
              var after := line[i + 1..]; var j := IndexOf(after, ' ');
              j < |after| && FromDecimal(after[..j]) == status && after[j + 1..] == reason + "\r"
  {
    var fields := ResponseFields(mime, |body|, keepAlive);
    var line, more := StatusLine(version, status, reason) + "\r", PrintFields(fields) + CRLF + body;
    HeadIsFields(version, status, reason, mime, |body|, keepAlive);
    DigitsAreTame(status);
    StatusLineFirst(StatusLine(version, status, reason), PrintFields(fields), body);
    ResponseFieldsAreFine(mime, |body|, keepAlive);
    FieldsRoundTrip(fields, body, map[]);
    ResponseFieldMap(mime, |body|, keepAlive);
    PrintedStatusLine(version, status, reason);
    if ' ' !in version { StatusLineSplits(line, version, status, reason + "\r"); }
  }

  lemma PrintedStatusLine(version: string, status: nat, reason: string)
    ensures IsStatusLine(StatusLine(version, status, reason) + "\r", version, status, reason + "\r")
  {
    DecimalRoundTrip(status);
    assert StatusLine(version, status, reason) + "\r" == version + " " + ToDecimal(status) + " " + (reason + "\r");
  }

  lemma StatusLineFirst(line: string, fields: string, body: string)
    requires '\n' !in line
    ensures NextLine(line + CRLF + fields + CRLF + body, '\n') == Some((line + "\r", fields + CRLF + body))
  {
    assert line + CRLF + fields + CRLF + body == (line + "\r") + ['\n'] + (fields + CRLF + body);
    NextLineOf(line + "\r", '\n', fields + CRLF + body);
  }

  // ----- The end of the header is where a client looks for it -----

  predicate StartsWithBlankLine(s: string) {
    |s| >= 4 && s[0] == s[2] == '\r' && s[1] == s[3] == '\n'
  }

  /** The position just after the first CR LF CR LF, or the length when there is none. */
  function AfterBlankLine(s: string): nat {
    if s == [] then 0 else if StartsWithBlankLine(s) then 4 else 1 + AfterBlankLine(s[1..])
  }

  lemma {:induction false} BlankLineLater(c: char, s: string)
    requires c != '\r' || (|s| > 1 && s[1] != '\r')
    ensures AfterBlankLine([c] + s) == 1 + AfterBlankLine(s)
  {
    assert ([c] + s)[1..] == s;
  }

  lemma {:induction false} SkipWithinLine(line: string, tail: string)
    requires NoLineBreak(line)
    ensures AfterBlankLine(line + tail) == |line| + AfterBlankLine(tail)
  {
    if line == [] {
      assert line + tail == tail;
    } else {
      assert line + tail == [line[0]] + (line[1..] + tail);
      BlankLineLater(line[0], line[1..] + tail);
      SkipWithinLine(line[1..], tail);
    }
  }

  lemma {:induction false} SkipLineBreak(tail: string)
    requires tail != [] && tail[0] != '\r'
    ensures AfterBlankLine(CRLF + tail) == 2 + AfterBlankLine(tail)
  {
    BlankLineLater('\n', tail);
    BlankLineLater('\r', ['\n'] + tail);
    assert CRLF + tail == ['\r'] + (['\n'] + tail);
  }

  lemma {:induction false} SkipLine(line: string, tail: string)
    requires NoLineBreak(line) && tail != [] && tail[0] != '\r'
    ensures AfterBlankLine(line + (CRLF + tail)) == |line| + 2 + AfterBlankLine(tail)
  {
    SkipWithinLine(line, CRLF + tail);
    SkipLineBreak(tail);
  }

  lemma {:induction false} FieldsEndInBlankLine(line: string, fields: seq<Field>, body: string)
    requires NoLineBreak(line)
    requires forall i :: 0 <= i < |fields| ==> Tame(fields[i])
    ensures AfterBlankLine(line + CRLF + PrintFields(fields) + CRLF + body)
            == |line + CRLF + PrintFields(fields) + CRLF|
    decreases |fields|
  {
    if fields == [] {
      var tail := CRLF + CRLF + body;
      assert line + CRLF + PrintFields(fields) + CRLF + body == line + tail;
      SkipWithinLine(line, tail);
      assert StartsWithBlankLine(tail);
    } else {
      var next := fields[0].name + ": " + fields[0].data;
      var tail := next + CRLF + PrintFields(fields[1..]) + CRLF + body;
      assert line + CRLF + PrintFields(fields) + CRLF + body == line + (CRLF + tail);
      assert Tame(fields[0]) && next[0] == tail[0] && NoLineBreak(next);
      SkipLine(line, tail);
      FieldsEndInBlankLine(next, fields[1..], body);
    }
  }

  /** When every byte of header and body has been written, the bytes after the first blank line are
      exactly the body, and the printed content length is their number. */
  lemma {:induction false} BodyFollowsFirstBlankLine(version: string, status: nat, reason: string, mime: string,
                                                     body: string, keepAlive: bool)
    requires NoLineBreak(version) && NoLineBreak(reason) && NoLineBreak(mime)
    ensures var head := PrintHead(version, status, reason, mime, |body|, keepAlive);
            AfterBlankLine(head + body) == |head| && (head + body)[AfterBlankLine(head + body)..] == body
  {
    var fields := ResponseFields(mime, |body|, keepAlive);
    HeadIsFields(version, status, reason, mime, |body|, keepAlive);
    DigitsAreTame(status);
    ResponseFieldsAreFine(mime, |body|, keepAlive);
    FieldsEndInBlankLine(StatusLine(version, status, reason), fields, body);
  }

  // ----- When a client gets the whole response -----

  /** The byte counts that the kernel reports before the first write that fails. */
  function Reported(writes: seq<WriteResult>): nat {
    if writes == [] || !writes[0].Wrote? then 0 else writes[0].n + Reported(writes[1..])
  }

  /** The loop gets out what the kernel reports, as far as it is wanted and there. */
  lemma {:induction false} SentIs(remain: nat, left: nat, writes: seq<WriteResult>)
    ensures Sent(remain, left, writes) == Least(Reported(writes), Least(remain, left))
    decreases |writes|
  {
    if remain > 0 && writes != [] && writes[0].Wrote? {
      var k := Least(writes[0].n, Least(remain, left));
      SentIs(remain - k, left - k, writes[1..]);
    }
  }

  lemma HeadIsNotEmpty(version: string, status: nat, reason: string, mime: string, length: nat, keepAlive: bool)
    ensures |PrintHead(version, status, reason, mime, length, keepAlive)| >= 2
  {
    assert |CRLF| == 2;
  }

  /** The kernel reports enough, and what there is to send starts with the body. */
  predicate BodyGetsOut(body: string, source: Source, writes: seq<WriteResult>) {
    body <= Bytes(body, source) && Reported(writes) >= |body|
  }

  lemma SentBodyIff(body: string, source: Source, writes: seq<WriteResult>)
    ensures |SentBody(body, source, writes)| <= |body|
    ensures body != "" ==> (SentBody(body, source, writes) == body <==> BodyGetsOut(body, source, writes))
    ensures body == "" ==> SentBody(body, source, writes) == ""
  {
    var bytes := Bytes(body, source);
    var n := Sent(|body|, |bytes|, writes);
    SentIs(|body|, |bytes|, writes);
    if BodyGetsOut(body, source, writes) { assert bytes[..|body|] == body; }
    if bytes[..n] == body { assert n == |body|; }
  }

  /** What is sent is the response whose length was printed if and only if the one header write took
      the whole header, the file, if the body is to come from one, still starts with that body, and the
      kernel reports as many bytes before any failure. */
  lemma WireIsWholeIff(version: string, status: nat, reason: string, mime: string, body: string, keepAlive: bool,
                       isGet: bool, source: Source, headWrite: WriteResult, writes: seq<WriteResult>)
    ensures var head := PrintHead(version, status, reason, mime, |body|, keepAlive);
            Wire(head, body, isGet, source, headWrite, writes) == head + (if isGet then body else "") <==>
            headWrite.Wrote? && headWrite.n >= |head| &&
              (isGet && body != "" ==> BodyGetsOut(body, source, writes))
  {
    var head := PrintHead(version, status, reason, mime, |body|, keepAlive);
    HeadIsNotEmpty(version, status, reason, mime, |body|, keepAlive);
    SentBodyIff(body, source, writes);
    var wire, h := Wire(head, body, isGet, source, headWrite, writes), Accepted(headWrite, head);
    if wire == head + (if isGet then body else "") {
      assert |wire| == |head| + if isGet then |body| else 0;
      assert wire[|head|..] == if isGet then body else "";
    }
    if h == |head| { assert head[..h] == head; }
  }

  /** And then a client that looks for the first blank line finds exactly the body behind it. */
  lemma WholeWireHasItsBody(version: string, status: nat, reason: string, mime: string, body: string, keepAlive: bool,
                            source: Source, headWrite: WriteResult, writes: seq<WriteResult>)
    requires NoLineBreak(version) && NoLineBreak(reason) && NoLineBreak(mime)
    requires var head := PrintHead(version, status, reason, mime, |body|, keepAlive);
             headWrite.Wrote? && headWrite.n >= |head| && BodyGetsOut(body, source, writes)
    ensures var head := PrintHead(version, status, reason, mime, |body|, keepAlive);
            var wire := Wire(head, body, true, source, headWrite, writes);
            AfterBlankLine(wire) <= |wire| && wire[AfterBlankLine(wire)..] == body
  {
    WireIsWholeIff(version, status, reason, mime, body, keepAlive, true, source, headWrite, writes);
    BodyFollowsFirstBlankLine(version, status, reason, mime, body, keepAlive);
  }

  /** A header that meets a full socket buffer is dropped, and the body is sent without it; the handler
      is not told. */
  lemma HeaderIsDropped(head: string, body: string)
    ensures Wire(head, body, true, Memory, WouldBlock, [Wrote(|body|)]) == body
    ensures EndsWith(|body|, |body|, [Wrote(|body|)]).None?
  {
    SentIs(|body|, |body|, [Wrote(|body|)]);
    assert [Wrote(|body|)][1..] == [] && Reported([]) == 0;
    assert Reported([Wrote(|body|)]) == |body|;
    assert head[..0] == "" && body[..|body|] == body && "" + body == body;
  }

  /** The first call that does not write. */
  predicate FirstFailure(writes: seq<WriteResult>, i: int) {
    0 <= i < |writes| && !writes[i].Wrote? && forall j :: 0 <= j < i ==> writes[j].Wrote?
  }

  /** The loop over a body in memory ends with an error if and only if a call fails before the calls before
      it have reported all bytes; so a broken pipe is noticed exactly when that error is EPIPE. */
  lemma {:induction false} EndsWithIff(remain: nat, writes: seq<WriteResult>, error: WriteResult)
    ensures EndsWith(remain, remain, writes) == Some(error) <==>
            Reported(writes) < remain && exists i :: FirstFailure(writes, i) && writes[i] == error
    decreases |writes|
  {
    if remain > 0 && writes != [] {
      if writes[0].Wrote? {
        var k := Least(writes[0].n, remain);
        EndsWithIff(remain - k, writes[1..], error);
        forall i | FirstFailure(writes[1..], i) ensures FirstFailure(writes, i + 1) {}
        forall i | FirstFailure(writes, i) ensures i > 0 && FirstFailure(writes[1..], i - 1) {}
      } else {
        assert FirstFailure(writes, 0);
      }
    }
  }

  // ----- A file that has become shorter -----

  predicate NoFailure(writes: seq<WriteResult>) {
    forall i :: 0 <= i < |writes| ==> writes[i].Wrote?
  }

  lemma {:induction false} NoFailureNoError(remain: nat, left: nat, writes: seq<WriteResult>)
    requires NoFailure(writes)
    ensures EndsWith(remain, left, writes).None?
    decreases |writes|
  {
    if remain > 0 && writes != [] {
      var k := Least(writes[0].n, Least(remain, left));
      NoFailureNoError(remain - k, left - k, writes[1..]);
    }
  }

  /** As long as no call fails, the sendfile loop goes on for ever if and only if the file now has fewer
      bytes than the length printed: at its end, every call sends nothing. */
  lemma {:induction false} NeverReturnsIff(body: string, content: string)
    ensures (forall sends | NoFailure(sends) :: StillSending(body, Disk(content), sends)) <==> |content| < |body|
  {
    if |content| < |body| {
      forall sends | NoFailure(sends) ensures StillSending(body, Disk(content), sends) {
        SentIs(|body|, |content|, sends);
        NoFailureNoError(|body|, |content|, sends);
      }
    } else {
      var one := [Wrote(|body|)];
      SentIs(|body|, |content|, one);
      assert one[1..] == [] && Reported(one) == |body|;
      assert NoFailure(one) && !StillSending(body, Disk(content), one);
    }
  }
}
