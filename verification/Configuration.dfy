/** From the lines of the configuration file to the site a handler serves. */
module Configuration {
  import opened Prelude
  import opened Yaml
  import opened YamlReader
  import opened YamlCanonical
  import YamlDocument
  import YamlFits
  import YamlSlots
  import ConnectionDispatch
  import opened Sites

  /** One of these fields is `key` with this value. */
  predicate HasField(fields: Entries, key: string, node: Node)
    decreases fields
  {
    fields.Entry? && ((fields.key == key && fields.node == node) || HasField(fields.rest, key, node))
  }

  lemma {:induction false} FieldIsFound(obj: Obj, used: set<string>, fields: Entries, key: string, node: Node)
    requires GoodEntries(used, fields) && HasField(fields, key, node)
    ensures key in Fields(obj, fields) && Fields(obj, fields)[key] == NodeValue(node)
    decreases fields
  {
    var obj' := obj[fields.key := NodeValue(fields.node)];
    if fields.key == key && fields.node == node {
      YamlSlots.EarlierKeysStay(obj', used + {key}, fields.rest, key);
    } else {
      FieldIsFound(obj', used + {fields.key}, fields.rest, key, node);
    }
  }

  /** A good document that is read back. */
  predicate Readable(doc: Entries) {
    GoodEntries({}, doc) && YamlFits.Fits(doc)
  }

  /** What reading the printed document gives. */
  function Read(doc: Entries): Outcome<Obj> {
    Parse(Lines(doc, 0))
  }

  lemma TreeIsRead(doc: Entries)
    requires Readable(doc)
    ensures Read(doc) == Ok(YamlDocument.Tree(doc))
  {
    YamlDocument.ReadsBackIff(doc);
  }

  // ----- Typed access to what has been read -----

  function MapsOf(elems: seq<string>): seq<Obj> {
    seq(|elems|, i requires 0 <= i < |elems| => map["value" := Str(elems[i])])
  }

  /** What each accessor answers for a printed value: the value, where the types agree. */
  ghost predicate IsAnswered(tree: Obj, key: string, node: Node) {
    (GetInt(tree, key) ==
     if node.Leaf? && node.scalar.Int? then Ok(node.scalar.n) else Err(TypeMismatch(key))) &&
    (if node.Leaf? && node.scalar.Plain?
     then exists s :: Quotes(node.scalar.s, s) && GetString(tree, key) == Ok(s)
     else GetString(tree, key) == Err(TypeMismatch(key))) &&
    (GetArray(tree, key) ==
     if node.Array? then Ok(ElementObjs([], node.elements))
     else if node.Leaf? && node.scalar.Inline? then Ok(MapsOf(node.scalar.elems))
     else Err(TypeMismatch(key)))
  }

  /** After reading a printed document, the accessors give each of its integers, strings, less the quotes
      around them, and arrays, and report every other type. */
  lemma ValuesAreRead(doc: Entries, key: string, node: Node)
    requires Readable(doc) && HasField(doc, key, node)
    ensures Read(doc).Ok? && IsAnswered(Read(doc).value, key, node)
  {
    TreeIsRead(doc);
    FieldIsFound(map[], {}, doc, key, node);
    StoredIsAnswered(YamlDocument.Tree(doc), key, node);
  }

  lemma StoredIsAnswered(tree: Obj, key: string, node: Node)
    requires key in tree && tree[key] == NodeValue(node)
    ensures IsAnswered(tree, key, node)
  {
    if node.Leaf? && node.scalar.Plain? { UnquotedFits(node.scalar.s); }
  }

  predicate HasKey(fields: Entries, key: string)
    decreases fields
  {
    fields.Entry? && (fields.key == key || HasKey(fields.rest, key))
  }

  lemma {:induction false} OtherKeysStayOut(obj: Obj, fields: Entries, key: string)
    requires key !in obj && !HasKey(fields, key)
    ensures key !in Fields(obj, fields)
    decreases fields
  {
    if fields.Entry? { OtherKeysStayOut(obj[fields.key := NodeValue(fields.node)], fields.rest, key); }
  }

  /** And a key that has not been printed is reported as missing. */
  lemma MissingKeysAreReported(doc: Entries, key: string)
    requires Readable(doc) && !HasKey(doc, key)
    ensures Read(doc).Ok?
    ensures var tree := Read(doc).value;
            GetInt(tree, key) == Err(KeyNotFound(key)) && GetString(tree, key) == Err(KeyNotFound(key)) &&
            GetArray(tree, key) == Err(KeyNotFound(key))
  {
    TreeIsRead(doc);
    OtherKeysStayOut(map[], doc, key);
  }

  // ----- The servers -----

  /** A good document that is read back, with these servers. */
  predicate Configures(doc: Entries, elements: Elements) {
    Readable(doc) && HasField(doc, "servers", Array(elements))
  }

  /** The reader of a printed configuration gives back its array of servers. */
  lemma ServersAreRead(doc: Entries, elements: Elements)
    requires Configures(doc, elements)
    ensures Read(doc).Ok? && GetArray(Read(doc).value, "servers") == Ok(ElementObjs([], elements))
  {
    ValuesAreRead(doc, "servers", Array(elements));
  }

  /** An element prints this string under `field`: on its '-' line, or below. */
  predicate PrintsText(key: string, text: string, more: Entries, field: string, s: string) {
    (key == field && text == s) || HasField(more, field, Leaf(Plain(s)))
  }

  /** The element number `k` prints this name and this root, quoted or not. */
  ghost predicate PrintsSite(elements: Elements, k: int, name: string, root: string)
    decreases elements
  {
    elements.Item? &&
    if k == 0 then
      exists n, r ::
        PrintsText(elements.key, elements.text, elements.more, "name", n) && Quotes(n, name) &&
        PrintsText(elements.key, elements.text, elements.more, "root", r) && Quotes(r, root)
    else PrintsSite(elements.rest, k - 1, name, root)
  }

  lemma {:induction false} TextIsFound(key: string, text: string, more: Entries, field: string, s: string)
    requires GoodEntries({key}, more) && PrintsText(key, text, more, field, s)
    ensures HasText(ItemObj(key, text, more), field) && ItemObj(key, text, more)[field].str == s
  {
    if key == field && text == s {
      YamlSlots.EarlierKeysStay(map[key := Str(text)], {key}, more, key);
    } else {
      FieldIsFound(map[key := Str(text)], {key}, more, field, Leaf(Plain(s)));
    }
  }

  lemma {:induction false} EarlierElementsStay(objs: seq<Obj>, elements: Elements)
    ensures objs <= ElementObjs(objs, elements)
    decreases elements
  {
    if elements.Item? {
      EarlierElementsStay(objs + [ItemObj(elements.key, elements.text, elements.more)], elements.rest);
    }
  }

  /** What an element prints is what its entry says once it has been read. */
  lemma {:induction false} PrintedSiteIsSaid(objs: seq<Obj>, elements: Elements, k: int, name: string, root: string)
    requires GoodElements(elements) && k >= 0 && PrintsSite(elements, k, name, root)
    ensures |objs| + k < |ElementObjs(objs, elements)|
    ensures Says(ElementObjs(objs, elements)[|objs| + k], name, root)
    decreases elements
  {
    var Item(key, text, more, rest) := elements;
    var next := objs + [ItemObj(key, text, more)];
    if k == 0 {
      var n, r :| PrintsText(key, text, more, "name", n) && Quotes(n, name) &&
                  PrintsText(key, text, more, "root", r) && Quotes(r, root);
      TextIsFound(key, text, more, "name", n);
      TextIsFound(key, text, more, "root", r);
      EarlierElementsStay(next, rest);
      assert ElementObjs(objs, elements)[|objs|] == next[|objs|] == ItemObj(key, text, more);
    } else {
      PrintedSiteIsSaid(next, rest, k - 1, name, root);
    }
  }

  lemma {:induction false} ServersAreGood(used: set<string>, doc: Entries, elements: Elements)
    requires GoodEntries(used, doc) && HasField(doc, "servers", Array(elements))
    ensures GoodElements(elements)
    decreases doc
  {
    if doc.key == "servers" && doc.node == Array(elements) {
      assert GoodNode(Array(elements));
    } else {
      ServersAreGood(used + {doc.key}, doc.rest, elements);
    }
  }

  /** In every interleaving, the site a handler looks up in the parsed configuration is that of the first
      server entry in the file whose port is that of the listener its connection came by: with the name
      and the root printed in that entry, less the quotes around them. */
  lemma HandlerServesTheFilesSite(doc: Entries, elements: Elements, listens: seq<Listen>, s: ConnectionDispatch.State,
                                  c: nat)
    requires Configures(doc, elements)
    requires var servers := ElementObjs([], elements);
             ListensOn(listens, servers) && Distinct(listens) && NoneHandedDown(listens)
    requires ConnectionDispatch.Reachable(RegisterAll(listens), WatchedFds(listens), s) && c < |s.calls|
    ensures Read(doc).Ok? && s.calls[c].conn < |s.net.conns|
    ensures var servers := ElementObjs([], elements);
            exists i, k :: 0 <= i < |listens| && listens[i].watched &&
              listens[i].fd == s.net.conns[s.calls[c].conn].listener && FirstServer(servers, listens[i].port, k) &&
              forall name, root :: PrintsSite(elements, k, name, root) ==>
                ConfiguredSite(Read(doc).value, s.calls[c].port) == Ok(Site(name, root, true))
  {
    SearchIsInTheServers(doc, elements, s.calls[c].port);
    ServersAreGood({}, doc, elements);
    var i, k := ServedEntry(ElementObjs([], elements), listens, s, c);
    PrintedSitesAreFound(elements, k, SiteFor(ElementObjs([], elements), s.calls[c].port));
  }

  lemma SearchIsInTheServers(doc: Entries, elements: Elements, port: ConnectionDispatch.Port)
    requires Configures(doc, elements)
    ensures Read(doc).Ok? && ConfiguredSite(Read(doc).value, port) == SiteFor(ElementObjs([], elements), port)
  {
    ServersAreRead(doc, elements);
  }

  lemma PrintedSitesAreFound(elements: Elements, k: int, site: Access<Site>)
    requires GoodElements(elements) && 0 <= k < |ElementObjs([], elements)|
    requires forall name, root :: Says(ElementObjs([], elements)[k], name, root) ==> site == Ok(Site(name, root, true))
    ensures forall name, root :: PrintsSite(elements, k, name, root) ==> site == Ok(Site(name, root, true))
  {
    forall name, root | PrintsSite(elements, k, name, root) ensures site == Ok(Site(name, root, true)) {
      PrintedSiteIsSaid([], elements, k, name, root);
    }
  }

  /** The entry that `HandlerServesItsListenersSite` speaks of. */
  lemma ServedEntry(servers: seq<Obj>, listens: seq<Listen>, s: ConnectionDispatch.State, c: nat)
    returns (i: int, k: int)
    requires ListensOn(listens, servers) && Distinct(listens) && NoneHandedDown(listens)
    requires ConnectionDispatch.Reachable(RegisterAll(listens), WatchedFds(listens), s) && c < |s.calls|
    ensures s.calls[c].conn < |s.net.conns|
    ensures 0 <= i < |listens| && listens[i].watched && listens[i].fd == s.net.conns[s.calls[c].conn].listener
    ensures FirstServer(servers, listens[i].port, k)
    ensures forall name, root :: Says(servers[k], name, root) ==>
              SiteFor(servers, s.calls[c].port) == Ok(Site(name, root, true))
  {
    HandlerServesItsListenersSite(servers, listens, s, c);
    i, k :| 0 <= i < |listens| && listens[i].watched &&
            listens[i].fd == s.net.conns[s.calls[c].conn].listener &&
            FirstServer(servers, listens[i].port, k) && s.calls[c].port == listens[i].port &&
            forall name, root :: Says(servers[k], name, root) ==>
              SiteFor(servers, s.calls[c].port) == Ok(Site(name, root, true));
  }
}
