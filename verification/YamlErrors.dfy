/** What is refused, with which error, wherever it comes after a document that is read. */
module YamlErrors {
  import opened Prelude
  import opened Text
  import opened Yaml
  import opened YamlCanonical
  import opened YamlFits
  import opened YamlRoundTrip
  import opened YamlReading
  import opened YamlMisplaced
  import opened YamlDocument

  /** Reading these lines ends in this error, whatever follows them. (Quantified, so that proofs do not
      unfold the parser.) */
  ghost predicate Refused(lines: seq<string>, error: Error) {
    forall rest: seq<string> :: Parse(lines + rest) == Err(error)
  }

  /** The state after a document, when the next line is or is not an item. */
  lemma {:induction false} AfterDocument(doc: Entries, rest: seq<string>) returns (st: State)
    requires GoodEntries({}, doc) && FitsEntries(doc, 0, 1, NextIsItem(rest))
    ensures Parse(Lines(doc, 0) + rest) == ParseFrom(st, rest) && Dedent(st, 0).arrays == []
  {
    StartIsReady();
    if doc.End? {
      st := START;
      NothingBefore(rest);
    } else {
      st := EntriesTake(START, START, [], map[], {}, 0, doc, rest, false);
      TakesMeans(START, Lines(doc, 0), rest, st, false);
      BackAt(st, START, [], map[], 0, st.data, AfterEntries(doc, 0, 1));
    }
  }

  lemma {:induction false} LineDecides(doc: Entries, line: string, rest: seq<string>, error: Error)
    requires GoodEntries({}, doc) && !Skipped(Trim(line)) && FitsEntries(doc, 0, 1, Trim(line)[0] == '-')
    requires forall st: State ::
               Dedent(st, 0).arrays == [] ==> Step(st, Indent(line), Trim(line), NextIsItem(rest)) == Err(error)
    ensures Parse((Lines(doc, 0) + [line]) + rest) == Err(error)
  {
    assert (Lines(doc, 0) + [line]) + rest == Lines(doc, 0) + ([line] + rest);
    assert ([line] + rest)[0] == line;
    var st := AfterDocument(doc, [line] + rest);
    ParseOne(st, line, rest);
  }

  /** A line without a colon that is no item. */
  lemma {:induction false} NoColonIsRefused(doc: Entries, line: string)
    requires GoodEntries({}, doc) && Fits(doc)
    requires !Skipped(Trim(line)) && Trim(line)[0] != '-' && ':' !in Trim(line)
    ensures Refused(Lines(doc, 0) + [line], InvalidLine(Trim(line)))
  {
    NoIndex(Trim(line), ':');
    forall rest: seq<string> ensures Parse((Lines(doc, 0) + [line]) + rest) == Err(InvalidLine(Trim(line))) {
      LineDecides(doc, line, rest, InvalidLine(Trim(line)));
    }
  }

  /** An item at the left margin, where no array can be open. */
  lemma {:induction false} LooseItemIsRefused(doc: Entries, line: string)
    requires GoodEntries({}, doc) && FitsEntries(doc, 0, 1, true)
    requires !Skipped(Trim(line)) && Trim(line)[0] == '-' && Indent(line) == 0
    ensures Refused(Lines(doc, 0) + [line], ItemWithoutParent)
  {
    forall rest: seq<string> ensures Parse((Lines(doc, 0) + [line]) + rest) == Err(ItemWithoutParent) {
      LineDecides(doc, line, rest, ItemWithoutParent);
    }
  }

  /** A number too large for an int. */
  lemma {:induction false} LargeNumberIsRefused(doc: Entries, indent: nat, key: string, text: string)
    requires GoodEntries({}, doc) && Fits(doc) && GoodKey(key)
    requires text != "" && AllIn(text, DIGITS) && FromDecimal(text) > 0x7fff_ffff
    ensures Refused(Lines(doc, 0) + [Spaces(indent) + Body(key, text)], OutOfRange(text))
  {
    assert forall i :: 0 <= i < |text| ==> '0' <= text[i] <= '9';
    assert "true"[0] == 't' && "false"[0] == 'f';
    ValueIsRefused(doc, indent, key, text, OutOfRange(text));
  }

  /** A text of digits and dots that starts with a dot and no digit after it. */
  lemma {:induction false} DotsAreRefused(doc: Entries, indent: nat, key: string, text: string)
    requires GoodEntries({}, doc) && Fits(doc) && GoodKey(key)
    requires text != "" && AllIn(text, DIGITS + ".") && text[0] == '.' && (|text| == 1 || text[1] == '.')
    ensures Refused(Lines(doc, 0) + [Spaces(indent) + Body(key, text)], NotANumber(text))
  {
    assert forall i :: 0 <= i < |text| ==> text[i] == '.' || '0' <= text[i] <= '9';
    assert "true"[0] == 't' && "false"[0] == 'f';
    ValueIsRefused(doc, indent, key, text, NotANumber(text));
  }

  lemma {:induction false} ValueIsRefused(doc: Entries, indent: nat, key: string, text: string, error: Error)
    requires GoodEntries({}, doc) && Fits(doc) && GoodKey(key) && Clean(text) && text != ""
    requires !IsBracketed(text) && ReadScalar(text) == Err(error)
    ensures Refused(Lines(doc, 0) + [Spaces(indent) + Body(key, text)], error)
  {
    var line := Spaces(indent) + Body(key, text);
    FieldLineReads(indent, key, text);
    BodyReads(key, text);
    forall rest: seq<string> ensures Parse((Lines(doc, 0) + [line]) + rest) == Err(error) {
      LineDecides(doc, line, rest, error);
    }
  }

  /** An element that is not a field. */
  lemma {:induction false} BareItemIsRefused(key: string, item: string)
    requires GoodKey(key) && Clean(item) && item != "" && ':' !in item
    ensures Refused([Body(key, ""), "  - " + item], InvalidItem(item))
  {
    forall rest: seq<string> ensures Parse([Body(key, ""), "  - " + item] + rest) == Err(InvalidItem(item)) {
      BareItemEnds(key, item, rest);
    }
  }

  lemma {:induction false} BareItemEnds(key: string, item: string, rest: seq<string>)
    requires GoodKey(key) && Clean(item) && item != "" && ':' !in item
    ensures Parse([Body(key, ""), "  - " + item] + rest) == Err(InvalidItem(item))
  {
    var line, listed := "  - " + item, Listed(START, [], map[], 0, key);
    BareItemReads(item);
    assert ([line] + rest)[0] == line;
    StartIsReady();
    ArrayTakes(START, START, [], map[], 0, key, Block(End), [line] + rest, false);
    assert Spaces(0) + Body(key, "") == Body(key, "");
    TakesMeans(START, [Body(key, "")], [line] + rest, listed, false);
    assert [Body(key, ""), line] + rest == [Body(key, "")] + ([line] + rest);
    ListedIsReady(START, [], map[], 0, key);
    ItemOpens(listed, START, [], map[], 0, key, [], Mark(0, 1, 0));
    NoIndex(item, ':');
    ParseOne(listed, line, rest);
  }

  lemma {:induction false} BareItemReads(item: string)
    requires Clean(item) && item != ""
    ensures var line := "  - " + item;
            Trim(line) == Dashed(item) && Indent(line) == 2 && !Skipped(Dashed(item)) && Dashed(item)[0] == '-' &&
            Trim(Dashed(item)[1..]) == item
  {
    DashedReads(item);
    assert Spaces(2) == "  " by { assert Spaces(1) == " "; }
    assert "  - " + item == Spaces(2) + Dashed(item);
    TrimPadded(Spaces(2), Dashed(item));
    IndentOf(2, Dashed(item));
  }
}
