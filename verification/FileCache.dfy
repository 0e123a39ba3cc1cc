/**
  The LRU file cache of Core/mstd/fileCache.hpp. The file system is an environment value passed to
  each call; a call sees one file system from start to end.
*/
module FileCache {
  import opened Prelude

  type Path = string
  type Bytes = seq<char>

  datatype File = File(content: Bytes, mtime: int)

  /** The regular files that can be opened for reading. */
  type FileSystem = map<Path, File>

  /** What `get` hands out. */
  datatype Served = Served(content: Bytes, mime: string)

  /** A cached file, as a value. */
  datatype Entry = Entry(path: Path, content: Bytes, mime: string, mtime: int)

  // ----- The environment -----

  /** The modification time stat reports; 0 when stat fails. */
  function WriteTime(fs: FileSystem, path: Path): int {
    if path in fs then fs[path].mtime else 0
  }

  /** load_file: missing and empty files are not loaded. */
  function LoadFile(fs: FileSystem, mimeOf: Path -> string, path: Path): Option<Entry> {
    if path in fs && fs[path].content != [] then Some(Entry(path, fs[path].content, mimeOf(path), fs[path].mtime))
    else None
  }

  function IsModified(fs: FileSystem, e: Entry): bool {
    WriteTime(fs, e.path) > e.mtime
  }

  // ----- The cache as a value: entries, most recently used first -----

  datatype Cache = Cache(entries: seq<Entry>, maxSize: nat, hits: nat, misses: nat)

  function TotalSize(entries: seq<Entry>): nat {
    if entries == [] then 0 else |entries[0].content| + TotalSize(entries[1..])
  }

  /** Least recently used entries dropped until the rest fits. */
  function Trim(entries: seq<Entry>, maxSize: nat): seq<Entry>
    decreases |entries|
  {
    if TotalSize(entries) <= maxSize then entries
    else if entries == [] then []
    else Trim(entries[..|entries| - 1], maxSize)
  }

  /** The position of `path`, or the number of entries when it is not cached. */
  function Find(entries: seq<Entry>, path: Path): (i: nat)
    ensures i <= |entries|
    ensures i < |entries| ==> entries[i].path == path
    ensures forall j :: 0 <= j < i ==> entries[j].path != path
  {
    if entries == [] || entries[0].path == path then 0 else 1 + Find(entries[1..], path)
  }

  function Drop<T>(xs: seq<T>, i: nat): seq<T>
    requires i < |xs|
  {
    xs[..i] + xs[i + 1..]
  }

  function Serve(e: Entry): Served {
    Served(e.content, e.mime)
  }

  /** The cache and the answer after loading `path`, which is not cached, from disk. */
  function LoadInto(fs: FileSystem, mimeOf: Path -> string, c: Cache, path: Path): (Cache, Option<Served>) {
    match LoadFile(fs, mimeOf, path)
    case None => (c, None)
    case Some(e) => (c.(entries := Trim([e] + c.entries, c.maxSize)), Some(Serve(e)))
  }

  /** `path` is cached and has not been modified since. */
  predicate IsHit(fs: FileSystem, c: Cache, path: Path) {
    var i := Find(c.entries, path);
    i < |c.entries| && !IsModified(fs, c.entries[i])
  }

  function Hit(c: Cache, path: Path): Cache {
    var i := Find(c.entries, path);
    if i == |c.entries| then c
    else c.(entries := [c.entries[i]] + Drop(c.entries, i), hits := c.hits + 1)
  }

  function Miss(c: Cache, path: Path): Cache {
    var i := Find(c.entries, path);
    c.(entries := if i < |c.entries| then Drop(c.entries, i) else c.entries, misses := c.misses + 1)
  }

  /** The cache and the answer after `get(path)`. */
  function Lookup(fs: FileSystem, mimeOf: Path -> string, c: Cache, path: Path): (Cache, Option<Served>) {
    if IsHit(fs, c, path) then (Hit(c, path), Some(Serve(c.entries[Find(c.entries, path)])))
    else LoadInto(fs, mimeOf, Miss(c, path), path)
  }

  function Resize(c: Cache, maxSize: nat): Cache {
    c.(entries := Trim(c.entries, maxSize), maxSize := maxSize)
  }

  lemma {:induction false} TotalSizeConcat(xs: seq<Entry>, ys: seq<Entry>)
    ensures TotalSize(xs + ys) == TotalSize(xs) + TotalSize(ys)
  {
    if xs == [] {
      assert xs + ys == ys;
    } else {
      assert (xs + ys)[1..] == xs[1..] + ys;
      TotalSizeConcat(xs[1..], ys);
    }
  }

  lemma {:induction false} TotalSizeDrop(xs: seq<Entry>, i: nat)
    requires i < |xs|
    ensures TotalSize(Drop(xs, i)) == TotalSize(xs) - |xs[i].content|
  {
    assert xs == xs[..i] + ([xs[i]] + xs[i + 1..]);
    TotalSizeConcat(xs[..i], [xs[i]] + xs[i + 1..]);
    TotalSizeConcat([xs[i]], xs[i + 1..]);
    TotalSizeConcat(xs[..i], xs[i + 1..]);
  }

  // ----- The implementation: a list of nodes, a map with stored iterators, a running total -----

  /** A node of the LRU list; a reference to it is a list iterator, stable until its erasure. */
  class LruNode {
    const path: Path

    constructor (path: Path)
      ensures this.path == path
    {
      this.path := path;
    }
  }

  datatype CachedFile = CachedFile(content: Bytes, mime: string, lastModified: int, fileSize: nat, lruIt: LruNode)

  type Nodes = seq<LruNode>
  type Table = map<Path, CachedFile>

  /** The list and the map agree: the nodes are the stored iterators of their own paths, each once. */
  ghost predicate Linked(lru: Nodes, cache: Table) {
    (forall i, j :: 0 <= i < j < |lru| ==> lru[i].path != lru[j].path) &&
    (forall i :: 0 <= i < |lru| ==> lru[i].path in cache && cache[lru[i].path].lruIt == lru[i]) &&
    (forall p :: p in cache ==> cache[p].lruIt in lru && cache[p].lruIt.path == p &&
                                cache[p].fileSize == |cache[p].content|)
  }

  function EntryOf(path: Path, f: CachedFile): Entry {
    Entry(path, f.content, f.mime, f.lastModified)
  }

  /** The entries that a list and a map in agreement stand for. */
  ghost function EntriesOf(lru: Nodes, cache: Table): seq<Entry>
    requires Linked(lru, cache)
  {
    seq(|lru|, i requires 0 <= i < |lru| => EntryOf(lru[i].path, cache[lru[i].path]))
  }

  lemma DropAt<T>(xs: seq<T>, i: nat, j: nat)
    requires i < |xs| && j < |xs| - 1
    ensures Drop(xs, i)[j] == xs[if j < i then j else j + 1]
  {
  }

  lemma EraseLinked(lru: Nodes, cache: Table, i: nat)
    requires Linked(lru, cache) && i < |lru|
    ensures Linked(Drop(lru, i), cache - {lru[i].path})
  {
    var lru', cache' := Drop(lru, i), cache - {lru[i].path};
    forall j, k | 0 <= j < k < |lru'| ensures lru'[j].path != lru'[k].path {
      DropAt(lru, i, j);
      DropAt(lru, i, k);
    }
    forall j | 0 <= j < |lru'| ensures lru'[j].path in cache' && cache'[lru'[j].path].lruIt == lru'[j] {
      DropAt(lru, i, j);
    }
    forall p | p in cache' ensures cache'[p].lruIt in lru' {
      var j :| 0 <= j < |lru| && lru[j] == cache[p].lruIt;
      DropAt(lru, i, if j < i then j else j - 1);
    }
  }

  lemma EraseBoth(lru: Nodes, cache: Table, i: nat)
    requires Linked(lru, cache) && i < |lru|
    ensures Linked(Drop(lru, i), cache - {lru[i].path})
    ensures EntriesOf(Drop(lru, i), cache - {lru[i].path}) == Drop(EntriesOf(lru, cache), i)
  {
    EraseLinked(lru, cache, i);
    var after, entries := EntriesOf(Drop(lru, i), cache - {lru[i].path}), EntriesOf(lru, cache);
    forall j | 0 <= j < |after| ensures after[j] == Drop(entries, i)[j] {
      DropAt(lru, i, j);
      DropAt(entries, i, j);
    }
  }

  lemma PushFrontBoth(lru: Nodes, cache: Table, f: CachedFile)
    requires Linked(lru, cache) && f.lruIt.path !in cache && f.fileSize == |f.content|
    ensures Linked([f.lruIt] + lru, cache[f.lruIt.path := f])
    ensures EntriesOf([f.lruIt] + lru, cache[f.lruIt.path := f]) == [EntryOf(f.lruIt.path, f)] + EntriesOf(lru, cache)
  {
    var lru', cache' := [f.lruIt] + lru, cache[f.lruIt.path := f];
    forall p | p in cache' ensures cache'[p].lruIt in lru' {
      if p == f.lruIt.path { assert lru'[0] == f.lruIt; }
    }
  }

  lemma MoveToFrontBoth(lru: Nodes, cache: Table, i: nat, node: LruNode)
    requires Linked(lru, cache) && i < |lru| && node.path == lru[i].path
    ensures var cache' := cache[node.path := cache[node.path].(lruIt := node)];
            Linked([node] + Drop(lru, i), cache') &&
            EntriesOf([node] + Drop(lru, i), cache') ==
            [EntriesOf(lru, cache)[i]] + Drop(EntriesOf(lru, cache), i)
  {
    EraseBoth(lru, cache, i);
    var without, file := cache - {node.path}, cache[node.path].(lruIt := node);
    PushFrontBoth(Drop(lru, i), without, file);
    assert cache[node.path := file] == without[node.path := file];
  }

  /** Looking a path up in the map is finding it in the list. */
  lemma {:induction false} FindInBoth(lru: Nodes, cache: Table, path: Path)
    requires Linked(lru, cache)
    ensures var i := Find(EntriesOf(lru, cache), path);
            if path in cache then i < |lru| && lru[i] == cache[path].lruIt else i == |lru|
  {
    if path in cache {
      var i :| 0 <= i < |lru| && lru[i] == cache[path].lruIt;
      assert EntriesOf(lru, cache)[i].path == path;
    }
  }

  /** The position a list iterator stands for. */
  function Position(lru: Nodes, node: LruNode): (i: nat)
    requires node in lru
    ensures i < |lru| && lru[i] == node
  {
    if lru[0] == node then 0 else 1 + Position(lru[1..], node)
  }

  class FileCache {
    const mimeOf: Path -> string
    var maxSize: nat
    var currentSize: nat
    var lru: Nodes
    var cache: Table
    var hits: nat
    var misses: nat

    /** The three structures agree; this holds throughout the eviction loops too. */
    ghost predicate Agree()
      reads this
    {
      Linked(lru, cache) && currentSize == TotalSize(EntriesOf(lru, cache))
    }

    ghost predicate Valid()
      reads this
    {
      Agree() && currentSize <= maxSize
    }

    ghost function Entries(): seq<Entry>
      reads this
      requires Linked(lru, cache)
    {
      EntriesOf(lru, cache)
    }

    ghost function Value(): Cache
      reads this
      requires Linked(lru, cache)
    {
      Cache(Entries(), maxSize, hits, misses)
    }

    constructor (maxSize: nat, mimeOf: Path -> string)
      ensures Valid() && Value() == Cache([], maxSize, 0, 0) && this.mimeOf == mimeOf
    {
      this.mimeOf := mimeOf;
      this.maxSize, currentSize := maxSize, 0;
      lru, cache := [], map[];
      hits, misses := 0, 0;
    }

    /** evict: drops the least recently used file, if there is one. */
    method Evict()
      requires Agree()
      modifies this`lru, this`cache, this`currentSize
      ensures Agree()
      ensures Entries() == if old(Entries()) == [] then [] else old(Entries())[..|old(Entries())| - 1]
    {
      if lru == [] { return; }
      ghost var before := Entries();
      ghost var last := |lru| - 1;
      EraseBoth(lru, cache, last);
      TotalSizeDrop(before, last);
      assert Drop(before, last) == before[..last] && Drop(lru, last) == lru[..last];
      var node := lru[|lru| - 1];
      if node.path in cache {
        assert before[last].content == cache[node.path].content;
        currentSize := currentSize - cache[node.path].fileSize;
        cache := cache - {node.path};
      }
      lru := lru[..|lru| - 1];
    }

    /** The eviction loop of `get` and `set_max_size`: it ends because an empty list means size 0. */
    method EvictUntilFits()
      requires Agree()
      modifies this`lru, this`cache, this`currentSize
      ensures Valid() && Entries() == Trim(old(Entries()), maxSize)
    {
      while currentSize > maxSize
        invariant Agree() && Trim(Entries(), maxSize) == Trim(old(Entries()), maxSize)
        decreases |lru|
      {
        Evict();
      }
    }

    method SetMaxSize(maxSize: nat)
      requires Valid()
      modifies this`maxSize, this`lru, this`cache, this`currentSize
      ensures Valid() && Value() == Resize(old(Value()), maxSize)
    {
      this.maxSize := maxSize;
      EvictUntilFits();
    }

    method LoadFileInto(fs: FileSystem, path: Path) returns (loaded: Option<Entry>)
      ensures loaded == LoadFile(fs, mimeOf, path)
    {
      if path !in fs { return None; }
      var fileSize := |fs[path].content|;
      if fileSize == 0 { return None; }
      return Some(Entry(path, fs[path].content, mimeOf(path), WriteTime(fs, path)));
    }

    /** A cached file leaves all three structures. */
    method EraseStale(path: Path)
      requires Agree() && path in cache
      modifies this`currentSize, this`lru, this`cache
      ensures Agree() && currentSize <= old(currentSize) && path !in cache
      ensures var before := old(Entries()); var i := Find(before, path);
              i < |before| && Entries() == Drop(before, i)
    {
      FindInBoth(lru, cache, path);
      var i := Position(lru, cache[path].lruIt);
      EraseBoth(lru, cache, i);
      TotalSizeDrop(Entries(), i);
      currentSize := currentSize - cache[path].fileSize;
      lru := Drop(lru, i);
      cache := cache - {path};
    }

    /** A miss is counted, and a modified file is erased. */
    method CountMiss(path: Path)
      requires Valid()
      modifies this`currentSize, this`lru, this`cache, this`misses
      ensures Valid() && path !in cache && Value() == Miss(old(Value()), path)
    {
      FindInBoth(lru, cache, path);
      misses := misses + 1;
      if path in cache {
        EraseStale(path);
      }
    }

    /** A cached path moves to the front of the list, under a new iterator. */
    method MoveToFront(path: Path)
      requires Agree() && path in cache
      modifies this`lru, this`cache
      ensures Agree() && path in cache
      ensures var before := old(Entries()); var i := Find(before, path);
              i < |before| && Entries() == [before[i]] + Drop(before, i) && before[i] == EntryOf(path, cache[path])
    {
      FindInBoth(lru, cache, path);
      ghost var before := Entries();
      var i := Position(lru, cache[path].lruIt);
      var node := new LruNode(path);
      MoveToFrontBoth(lru, cache, i, node);
      TotalSizeDrop(before, i);
      lru := [node] + Drop(lru, i);
      cache := cache[path := cache[path].(lruIt := node)];
    }

    /** A hit is counted, and its path moves to the front. */
    method CountHit(path: Path)
      requires Valid() && path in cache
      modifies this`lru, this`cache, this`hits
      ensures Valid() && path in cache && Value() == Hit(old(Value()), path)
      ensures |Entries()| > 0 && Entries()[0] == EntryOf(path, cache[path])
    {
      hits := hits + 1;
      MoveToFront(path);
    }

    /** A loaded file goes to the front; then the cache is brought back under its limit. */
    method Insert(e: Entry)
      requires Agree() && e.path !in cache
      modifies this`currentSize, this`lru, this`cache
      ensures Valid() && Entries() == Trim([e] + old(Entries()), maxSize)
    {
      var node := new LruNode(e.path);
      var file := CachedFile(e.content, e.mime, e.mtime, |e.content|, node);
      PushFrontBoth(lru, cache, file);
      lru := [node] + lru;
      cache := cache[e.path := file];
      currentSize := currentSize + file.fileSize;
      EvictUntilFits();
    }

    /** The second half of `get`: the path is not, or no longer, in the cache. */
    method LoadAndInsert(fs: FileSystem, path: Path) returns (r: Option<Served>)
      requires Valid() && path !in cache
      modifies this`currentSize, this`lru, this`cache
      ensures Valid()
      ensures (Value(), r) == LoadInto(fs, mimeOf, old(Value()), path)
    {
      var loaded := LoadFileInto(fs, path);
      if loaded.None? { return None; }
      Insert(loaded.value);
      return Some(Served(loaded.value.content, loaded.value.mime));
    }

    /** get: a fresh entry is served from memory; a missing or modified one is loaded. */
    method Get(fs: FileSystem, path: Path) returns (r: Option<Served>)
      requires Valid()
      modifies this`currentSize, this`lru, this`cache, this`hits, this`misses
      ensures Valid() && (Value(), r) == Lookup(fs, mimeOf, old(Value()), path)
    {
      FindInBoth(lru, cache, path);
      assert path in cache ==> EntryOf(path, cache[path]) == Entries()[Find(Entries(), path)];
      if path in cache && WriteTime(fs, path) <= cache[path].lastModified {
        CountHit(path);
        return Some(Served(cache[path].content, cache[path].mime));
      }
      CountMiss(path);
      r := LoadAndInsert(fs, path);
    }
  }
}
