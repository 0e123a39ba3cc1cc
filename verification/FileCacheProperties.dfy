/** What runs of the file cache guarantee. */
module FileCacheProperties {
  import opened Prelude
  import opened FileCache

  type MimeOf = Path -> string

  ghost predicate DistinctPaths(entries: seq<Entry>) {
    forall i, j :: 0 <= i < j < |entries| ==> entries[i].path != entries[j].path
  }

  // ----- The LRU stack property -----

  /** `gets` on one unchanging file system, in order. */
  function Gets(fs: FileSystem, mimeOf: MimeOf, c: Cache, paths: seq<Path>): Cache {
    if paths == [] then c
    else Lookup(fs, mimeOf, Gets(fs, mimeOf, c, paths[..|paths| - 1]), paths[|paths| - 1]).0
  }

  function RemovePath(entries: seq<Entry>, path: Path): seq<Entry> {
    if Find(entries, path) < |entries| then Drop(entries, Find(entries, path)) else entries
  }

  /** The loadable files among `paths`, each once, most recently asked for first. No cache here. */
  function Recency(fs: FileSystem, mimeOf: MimeOf, paths: seq<Path>): seq<Entry> {
    if paths == [] then []
    else
      var older := Recency(fs, mimeOf, paths[..|paths| - 1]);
      match LoadFile(fs, mimeOf, paths[|paths| - 1])
      case None => older
      case Some(e) => [e] + RemovePath(older, e.path)
  }

  /** `entries` is the longest prefix of `all` whose total size is at most `maxSize`. */
  ghost predicate LongestFitting(entries: seq<Entry>, all: seq<Entry>, maxSize: nat) {
    entries <= all && TotalSize(entries) <= maxSize &&
    forall n :: |entries| < n <= |all| ==> TotalSize(all[..n]) > maxSize
  }

  /** Every entry is what loading its path now gives. */
  ghost predicate UpToDate(fs: FileSystem, mimeOf: MimeOf, entries: seq<Entry>) {
    DistinctPaths(entries) &&
    forall i :: 0 <= i < |entries| ==> LoadFile(fs, mimeOf, entries[i].path) == Some(entries[i])
  }

  lemma {:induction false} FindUnique(entries: seq<Entry>, i: nat)
    requires i < |entries| && DistinctPaths(entries)
    ensures Find(entries, entries[i].path) == i
  {
    if i > 0 {
      assert entries[1..][i - 1] == entries[i];
      FindUnique(entries[1..], i - 1);
    }
  }

  /** Removing a path leaves distinct entries of the list, none of that path. */
  lemma RemovePathRemoves(entries: seq<Entry>, path: Path)
    requires DistinctPaths(entries)
    ensures var rest := RemovePath(entries, path);
            DistinctPaths(rest) && forall i :: 0 <= i < |rest| ==> rest[i].path != path && rest[i] in entries
  {
    var k, rest := Find(entries, path), RemovePath(entries, path);
    if k < |entries| {
      assert forall j :: 0 <= j < |entries| && j != k ==> entries[j].path != path;
      forall i | 0 <= i < |rest| ensures rest[i] == entries[if i < k then i else i + 1] { DropAt(entries, k, i); }
    }
  }

  lemma {:induction false} RecencyUpToDate(fs: FileSystem, mimeOf: MimeOf, paths: seq<Path>)
    ensures UpToDate(fs, mimeOf, Recency(fs, mimeOf, paths))
  {
    if paths != [] {
      var older := Recency(fs, mimeOf, paths[..|paths| - 1]);
      RecencyUpToDate(fs, mimeOf, paths[..|paths| - 1]);
      RemovePathRemoves(older, paths[|paths| - 1]);
    }
  }

  lemma {:induction false} TotalSizePrefix(entries: seq<Entry>, n: nat)
    requires n <= |entries|
    ensures TotalSize(entries[..n]) <= TotalSize(entries)
  {
    assert entries == entries[..n] + entries[n..];
    TotalSizeConcat(entries[..n], entries[n..]);
  }

  /** Trimming a list keeps the longest prefix that fits. */
  lemma {:induction false} TrimIsLongest(entries: seq<Entry>, maxSize: nat)
    ensures LongestFitting(Trim(entries, maxSize), entries, maxSize)
    decreases |entries|
  {
    if TotalSize(entries) > maxSize && entries != [] {
      var shorter := entries[..|entries| - 1];
      TrimIsLongest(shorter, maxSize);
      forall n | |Trim(shorter, maxSize)| < n <= |entries| ensures TotalSize(entries[..n]) > maxSize {
        if n < |entries| { assert entries[..n] == shorter[..n]; } else { assert entries[..n] == entries; }
      }
    }
  }

  lemma DropPrefix(entries: seq<Entry>, i: nat, n: nat)
    requires i < n <= |entries|
    ensures Drop(entries, i)[..n - 1] == Drop(entries[..n], i)
  {
  }

  /** A hit: moving entry `i` of the prefix to the front moves it in the whole list too. */
  lemma HitStep(kept: seq<Entry>, all: seq<Entry>, i: nat, maxSize: nat)
    requires LongestFitting(kept, all, maxSize) && i < |kept|
    ensures LongestFitting([kept[i]] + Drop(kept, i), [all[i]] + Drop(all, i), maxSize)
  {
    var kept', all' := [kept[i]] + Drop(kept, i), [all[i]] + Drop(all, i);
    forall n | |kept| <= n <= |all|
      ensures all'[..n] == [all[i]] + Drop(all[..n], i) && TotalSize(all'[..n]) == TotalSize(all[..n])
    {
      DropPrefix(all, i, n);
      assert all'[..n] == [all[i]] + Drop(all, i)[..n - 1];
      TotalSizeConcat([all[i]], Drop(all[..n], i));
      TotalSizeDrop(all[..n], i);
    }
    assert all[..|kept|] == kept && all'[..|kept|] == kept';
  }

  /** A miss: the loaded entry goes in front, and what no longer fits is trimmed. */
  lemma {:induction false} MissStep(kept: seq<Entry>, all: seq<Entry>, e: Entry, maxSize: nat)
    requires LongestFitting(kept, all, maxSize) && Find(kept, e.path) == |kept|
    requires Find(all, e.path) < |all| ==> all[Find(all, e.path)] == e
    ensures LongestFitting(Trim([e] + kept, maxSize), [e] + RemovePath(all, e.path), maxSize)
  {
    var j, m := Find(all, e.path), |kept|;
    var full, all' := [e] + kept, [e] + RemovePath(all, e.path);
    assert all[..m] == kept;
    assert forall i :: 0 <= i < m ==> all[i] == kept[i];
    assert RemovePath(all, e.path)[..m] == kept;
    assert all'[..m + 1] == full;
    TrimIsLongest(full, maxSize);
    forall n | |Trim(full, maxSize)| < n <= |all'| ensures TotalSize(all'[..n]) > maxSize {
      if n <= m + 1 {
        assert all'[..n] == full[..n];
      } else {
        LongerDoesNotFit(kept, all, e, maxSize, n);
      }
    }
  }

  lemma TakeTwice<T>(xs: seq<T>, n: nat, m: nat)
    requires m <= n <= |xs|
    ensures xs[..n][..m] == xs[..m]
  {
  }

  lemma {:induction false} LongerDoesNotFit(kept: seq<Entry>, all: seq<Entry>, e: Entry, maxSize: nat, n: nat)
    requires LongestFitting(kept, all, maxSize) && Find(all, e.path) >= |kept|
    requires Find(all, e.path) < |all| ==> all[Find(all, e.path)] == e
    requires |kept| + 1 < n <= |RemovePath(all, e.path)| + 1
    ensures TotalSize(([e] + RemovePath(all, e.path))[..n]) > maxSize
  {
    var all', m := [e] + RemovePath(all, e.path), |kept|;
    var front := all'[..n];
    assert front[..m + 1] == [e] + RemovePath(all, e.path)[..m] == [e] + kept;
    TotalSizePrefix(front, m + 1);
    if TotalSize([e] + kept) <= maxSize {
      NextDoesNotFit(kept, all, e, maxSize);
      TakeTwice(all', n, m + 2);
      TotalSizePrefix(front, m + 2);
    }
  }

  lemma {:induction false} NextDoesNotFit(kept: seq<Entry>, all: seq<Entry>, e: Entry, maxSize: nat)
    requires LongestFitting(kept, all, maxSize) && Find(all, e.path) >= |kept|
    requires Find(all, e.path) < |all| ==> all[Find(all, e.path)] == e
    requires TotalSize([e] + kept) <= maxSize && |RemovePath(all, e.path)| > |kept|
    ensures TotalSize(([e] + RemovePath(all, e.path))[..|kept| + 2]) > maxSize
  {
    var m := |kept|;
    assert all[..m + 1] == kept + [all[m]];
    TotalSizeConcat(kept, [all[m]]);
    TotalSizeConcat([e], kept);
    TotalSizeConcat([e], kept + [all[m]]);
    RemovesLater(kept, all, e);
  }

  /** What does not fit is not the requested file, which would: it is the next one. */
  lemma {:induction false} RemovesLater(kept: seq<Entry>, all: seq<Entry>, e: Entry)
    requires kept <= all && |RemovePath(all, e.path)| > |kept| && Find(all, e.path) > |kept|
    ensures ([e] + RemovePath(all, e.path))[..|kept| + 2] == [e] + (kept + [all[|kept|]])
  {
    var m := |kept|;
    assert RemovePath(all, e.path)[..m + 1] == all[..m + 1] == kept + [all[m]];
  }

  lemma StackStep(fs: FileSystem, mimeOf: MimeOf, c: Cache, all: seq<Entry>, path: Path)
    requires UpToDate(fs, mimeOf, all) && LongestFitting(c.entries, all, c.maxSize)
    ensures var all' := match LoadFile(fs, mimeOf, path) case None => all case Some(e) => [e] + RemovePath(all, path);
            var c' := Lookup(fs, mimeOf, c, path).0;
            LongestFitting(c'.entries, all', c'.maxSize) && c'.maxSize == c.maxSize
  {
    var i := Find(c.entries, path);
    if i < |c.entries| {
      assert all[i] == c.entries[i];
      FindUnique(all, i);
      HitStep(c.entries, all, i, c.maxSize);
    } else if LoadFile(fs, mimeOf, path).Some? {
      MissStep(c.entries, all, LoadFile(fs, mimeOf, path).value, c.maxSize);
    }
  }

  /** Over any sequence of gets from an empty cache on an unchanging file system, the cache holds
      exactly the longest prefix of the all-time recency list that fits. */
  lemma {:induction false} StackProperty(fs: FileSystem, mimeOf: MimeOf, maxSize: nat, paths: seq<Path>)
    ensures var c := Gets(fs, mimeOf, Cache([], maxSize, 0, 0), paths);
            LongestFitting(c.entries, Recency(fs, mimeOf, paths), maxSize) && c.maxSize == maxSize
  {
    if paths != [] {
      var older := paths[..|paths| - 1];
      StackProperty(fs, mimeOf, maxSize, older);
      RecencyUpToDate(fs, mimeOf, older);
      StackStep(fs, mimeOf, Gets(fs, mimeOf, Cache([], maxSize, 0, 0), older), Recency(fs, mimeOf, older),
        paths[|paths| - 1]);
    }
  }

  lemma FittingIsMonotone(small: seq<Entry>, large: seq<Entry>, all: seq<Entry>, smallMax: nat, largeMax: nat)
    requires LongestFitting(small, all, smallMax) && LongestFitting(large, all, largeMax) && smallMax <= largeMax
    ensures small <= large
  {
    assert all[..|small|] == small;
  }

  /** Inclusion: on the same requests, what a smaller cache holds is the front part of what a
      larger one holds. */
  lemma {:induction false} Inclusion(fs: FileSystem, mimeOf: MimeOf, smallMax: nat, largeMax: nat, paths: seq<Path>)
    requires smallMax <= largeMax
    ensures Gets(fs, mimeOf, Cache([], smallMax, 0, 0), paths).entries <=
            Gets(fs, mimeOf, Cache([], largeMax, 0, 0), paths).entries
  {
    StackProperty(fs, mimeOf, smallMax, paths);
    StackProperty(fs, mimeOf, largeMax, paths);
    FittingIsMonotone(Gets(fs, mimeOf, Cache([], smallMax, 0, 0), paths).entries,
                      Gets(fs, mimeOf, Cache([], largeMax, 0, 0), paths).entries,
                      Recency(fs, mimeOf, paths), smallMax, largeMax);
  }

  lemma HitInLarger(fs: FileSystem, mimeOf: MimeOf, small: Cache, large: Cache, all: seq<Entry>, path: Path)
    requires small.entries <= large.entries <= all && UpToDate(fs, mimeOf, all) && IsHit(fs, small, path)
    ensures IsHit(fs, large, path)
  {
    var i := Find(small.entries, path);
    assert large.entries[i] == small.entries[i] == all[i];
    assert forall j :: 0 <= j < |large.entries| ==> large.entries[j] == all[j];
    FindUnique(large.entries, i);
  }

  lemma CountsHits(fs: FileSystem, mimeOf: MimeOf, c: Cache, path: Path)
    ensures Lookup(fs, mimeOf, c, path).0.hits == c.hits + if IsHit(fs, c, path) then 1 else 0
  {
  }

  /** So a larger cache never has fewer hits. */
  lemma {:induction false} HitsGrowWithCapacity(fs: FileSystem, mimeOf: MimeOf, smallMax: nat, largeMax: nat,
                                                paths: seq<Path>)
    requires smallMax <= largeMax
    ensures Gets(fs, mimeOf, Cache([], smallMax, 0, 0), paths).hits <=
            Gets(fs, mimeOf, Cache([], largeMax, 0, 0), paths).hits
  {
    if paths != [] {
      var older, path := paths[..|paths| - 1], paths[|paths| - 1];
      HitsGrowWithCapacity(fs, mimeOf, smallMax, largeMax, older);
      Inclusion(fs, mimeOf, smallMax, largeMax, older);
      StackProperty(fs, mimeOf, largeMax, older);
      RecencyUpToDate(fs, mimeOf, older);
      var small := Gets(fs, mimeOf, Cache([], smallMax, 0, 0), older);
      var large := Gets(fs, mimeOf, Cache([], largeMax, 0, 0), older);
      CountsHits(fs, mimeOf, small, path);
      CountsHits(fs, mimeOf, large, path);
      if IsHit(fs, small, path) { HitInLarger(fs, mimeOf, small, large, Recency(fs, mimeOf, older), path); }
    }
  }

  // ----- Runs in a changing world -----

  datatype World = World(fs: FileSystem, cache: Cache)

  datatype Event =
    | Ask(path: Path)
    | SetMaxSize(maxSize: nat)
    | Write(path: Path, file: File)
    | Remove(path: Path)

  function Step(mimeOf: MimeOf, w: World, e: Event): World {
    match e
    case Ask(path) => w.(cache := Lookup(w.fs, mimeOf, w.cache, path).0)
    case SetMaxSize(m) => w.(cache := Resize(w.cache, m))
    case Write(path, file) => w.(fs := w.fs[path := file])
    case Remove(path) => w.(fs := w.fs - {path})
  }

  function Happen(mimeOf: MimeOf, w: World, events: seq<Event>): World
    decreases |events|
  {
    if events == [] then w else Happen(mimeOf, Step(mimeOf, w, events[0]), events[1..])
  }

  function Asked(events: seq<Event>): nat {
    if events == [] then 0 else (if events[0].Ask? then 1 else 0) + Asked(events[1..])
  }

  // ----- Accounting -----

  ghost predicate WithinLimit(c: Cache) {
    DistinctPaths(c.entries) && TotalSize(c.entries) <= c.maxSize
  }

  lemma {:induction false} TrimIsWithinLimit(entries: seq<Entry>, maxSize: nat)
    requires DistinctPaths(entries)
    ensures DistinctPaths(Trim(entries, maxSize)) && TotalSize(Trim(entries, maxSize)) <= maxSize
  {
    TrimIsLongest(entries, maxSize);
  }

  lemma MissKeepsLimit(c: Cache, path: Path)
    requires WithinLimit(c)
    ensures WithinLimit(Miss(c, path)) && forall i :: 0 <= i < |Miss(c, path).entries| ==>
            Miss(c, path).entries[i].path != path
  {
    var i := Find(c.entries, path);
    RemovePathRemoves(c.entries, path);
    assert Miss(c, path).entries == RemovePath(c.entries, path);
    if i < |c.entries| { TotalSizeDrop(c.entries, i); }
  }

  lemma {:induction false} HitKeepsLimit(c: Cache, path: Path)
    requires WithinLimit(c) && Find(c.entries, path) < |c.entries|
    ensures WithinLimit(Hit(c, path))
  {
    var i := Find(c.entries, path);
    RemovePathRemoves(c.entries, path);
    TotalSizeDrop(c.entries, i);
    TotalSizeConcat([c.entries[i]], Drop(c.entries, i));
  }

  lemma LookupKeepsLimit(fs: FileSystem, mimeOf: MimeOf, c: Cache, path: Path)
    requires WithinLimit(c)
    ensures var c' := Lookup(fs, mimeOf, c, path).0;
            WithinLimit(c') && c'.hits + c'.misses == c.hits + c.misses + 1
  {
    if IsHit(fs, c, path) { HitKeepsLimit(c, path); } else { MissKeepsLimit(c, path); }
    if !IsHit(fs, c, path) && LoadFile(fs, mimeOf, path).Some? {
      TrimIsWithinLimit([LoadFile(fs, mimeOf, path).value] + Miss(c, path).entries, c.maxSize);
    }
  }

  /** Over any mix of gets, limit changes and file changes: no path is cached twice, the cached
      bytes never exceed the limit, and hits and misses together count the gets. */
  lemma {:induction false} Accounting(mimeOf: MimeOf, w: World, events: seq<Event>)
    requires WithinLimit(w.cache)
    ensures var c := Happen(mimeOf, w, events).cache;
            WithinLimit(c) && c.hits + c.misses == w.cache.hits + w.cache.misses + Asked(events)
    decreases |events|
  {
    if events != [] {
      match events[0] {
        case Ask(path) => LookupKeepsLimit(w.fs, mimeOf, w.cache, path);
        case SetMaxSize(m) => TrimIsWithinLimit(w.cache.entries, m);
        case _ =>
      }
      Accounting(mimeOf, Step(mimeOf, w, events[0]), events[1..]);
    }
  }

  // ----- Transparency: the cache never shows -----

  /** What the file system has to serve now: an empty file is as good as none. */
  function OnDisk(fs: FileSystem, mimeOf: MimeOf, path: Path): Option<Served> {
    if path in fs && fs[path].content != [] then Some(Served(fs[path].content, mimeOf(path))) else None
  }

  /** A cached file exists; unless it has been modified later, its cached content is its content. */
  ghost predicate EntryCurrent(fs: FileSystem, mimeOf: MimeOf, e: Entry) {
    e.path in fs && e.mime == mimeOf(e.path) && e.content != [] &&
    (fs[e.path].mtime > e.mtime || (fs[e.path].mtime == e.mtime && fs[e.path].content == e.content))
  }

  ghost predicate EntriesCurrent(fs: FileSystem, mimeOf: MimeOf, entries: seq<Entry>) {
    DistinctPaths(entries) && forall i :: 0 <= i < |entries| ==> EntryCurrent(fs, mimeOf, entries[i])
  }

  ghost predicate Current(mimeOf: MimeOf, w: World) {
    EntriesCurrent(w.fs, mimeOf, w.cache.entries)
  }

  predicate IsCached(c: Cache, path: Path) {
    Find(c.entries, path) < |c.entries|
  }

  /** Writes to cached files strictly raise their time; cached files are not removed. */
  predicate Orderly(mimeOf: MimeOf, w: World, events: seq<Event>)
    decreases |events|
  {
    events == [] ||
    ((match events[0]
      case Write(path, file) => IsCached(w.cache, path) && path in w.fs ==> file.mtime > w.fs[path].mtime
      case Remove(path) => !IsCached(w.cache, path)
      case _ => true) &&
     Orderly(mimeOf, Step(mimeOf, w, events[0]), events[1..]))
  }

  lemma {:induction false} FindSome(entries: seq<Entry>, i: nat)
    requires i < |entries|
    ensures Find(entries, entries[i].path) <= i
  {
    if i > 0 {
      assert entries[1..][i - 1] == entries[i];
      FindSome(entries[1..], i - 1);
    }
  }

  lemma FrontIsCurrent(fs: FileSystem, mimeOf: MimeOf, e: Entry, rest: seq<Entry>)
    requires EntriesCurrent(fs, mimeOf, rest) && EntryCurrent(fs, mimeOf, e)
    requires forall i :: 0 <= i < |rest| ==> rest[i].path != e.path
    ensures EntriesCurrent(fs, mimeOf, [e] + rest)
  {
  }

  lemma {:induction false} TrimIsCurrent(fs: FileSystem, mimeOf: MimeOf, entries: seq<Entry>, maxSize: nat)
    requires EntriesCurrent(fs, mimeOf, entries)
    ensures EntriesCurrent(fs, mimeOf, Trim(entries, maxSize))
  {
    TrimIsLongest(entries, maxSize);
  }

  lemma LookupKeepsCurrent(fs: FileSystem, mimeOf: MimeOf, c: Cache, path: Path)
    requires EntriesCurrent(fs, mimeOf, c.entries)
    ensures EntriesCurrent(fs, mimeOf, Lookup(fs, mimeOf, c, path).0.entries)
  {
    var i, rest := Find(c.entries, path), RemovePath(c.entries, path);
    RemovePathRemoves(c.entries, path);
    assert EntriesCurrent(fs, mimeOf, rest) && Miss(c, path).entries == rest;
    if IsHit(fs, c, path) {
      FrontIsCurrent(fs, mimeOf, c.entries[i], rest);
    } else if LoadFile(fs, mimeOf, path).Some? {
      var e := LoadFile(fs, mimeOf, path).value;
      FrontIsCurrent(fs, mimeOf, e, rest);
      TrimIsCurrent(fs, mimeOf, [e] + rest, c.maxSize);
    }
  }

  lemma {:induction false} StepKeepsCurrent(mimeOf: MimeOf, w: World, e: Event)
    requires Current(mimeOf, w) && Orderly(mimeOf, w, [e])
    ensures Current(mimeOf, Step(mimeOf, w, e))
  {
    match e
    case Ask(path) => LookupKeepsCurrent(w.fs, mimeOf, w.cache, path);
    case SetMaxSize(m) => TrimIsCurrent(w.fs, mimeOf, w.cache.entries, m);
    case Write(path, file) =>
      forall i | 0 <= i < |w.cache.entries| ensures EntryCurrent(w.fs[path := file], mimeOf, w.cache.entries[i]) {
        FindSome(w.cache.entries, i);
      }
    case Remove(path) =>
      forall i | 0 <= i < |w.cache.entries| ensures w.cache.entries[i].path != path {
        FindSome(w.cache.entries, i);
      }
  }

  lemma {:induction false} OrderlyKeepsCurrent(mimeOf: MimeOf, w: World, events: seq<Event>)
    requires Current(mimeOf, w) && Orderly(mimeOf, w, events)
    ensures Current(mimeOf, Happen(mimeOf, w, events))
    decreases |events|
  {
    if events != [] {
      StepKeepsCurrent(mimeOf, w, events[0]);
      OrderlyKeepsCurrent(mimeOf, Step(mimeOf, w, events[0]), events[1..]);
    }
  }

  /** In an orderly run from an empty cache every get answers with the content and the MIME type that the
      file has now, and with nothing for a missing or empty file; for files too large to stay cached too. */
  lemma {:induction false} Transparency(mimeOf: MimeOf, fs: FileSystem, maxSize: nat, events: seq<Event>, path: Path)
    requires Orderly(mimeOf, World(fs, Cache([], maxSize, 0, 0)), events)
    ensures var w := Happen(mimeOf, World(fs, Cache([], maxSize, 0, 0)), events);
            Lookup(w.fs, mimeOf, w.cache, path).1 ==
            if path in w.fs && w.fs[path].content != [] then Some(Served(w.fs[path].content, mimeOf(path))) else None
  {
    OrderlyKeepsCurrent(mimeOf, World(fs, Cache([], maxSize, 0, 0)), events);
  }

  /** Exactly which writes the next get survives: those that do not touch a cached file, raise its
      time above the cached one, or leave its content as cached. */
  lemma {:induction false} WriteIsSeenIff(mimeOf: MimeOf, w: World, path: Path, file: File)
    requires Current(mimeOf, w)
    ensures var w', i := Step(mimeOf, w, Write(path, file)), Find(w.cache.entries, path);
            Lookup(w'.fs, mimeOf, w'.cache, path).1 == OnDisk(w'.fs, mimeOf, path) <==>
            (i == |w.cache.entries| || file.mtime > w.cache.entries[i].mtime ||
             file.content == w.cache.entries[i].content)
  {
  }

  /** Exactly which removals the next get notices: those of files not cached, or cached with a
      modification time before the epoch, which is what a failed stat reports. */
  lemma {:induction false} RemovalIsSeenIff(mimeOf: MimeOf, w: World, path: Path)
    requires Current(mimeOf, w)
    ensures var w', i := Step(mimeOf, w, Remove(path)), Find(w.cache.entries, path);
            Lookup(w'.fs, mimeOf, w'.cache, path).1 == OnDisk(w'.fs, mimeOf, path) <==>
            (i == |w.cache.entries| || w.cache.entries[i].mtime < 0)
  {
  }

  // ----- Over a whole run: exactly when the cache never shows -----

  predicate AnswersTruly(mimeOf: MimeOf, w: World, path: Path) {
    Lookup(w.fs, mimeOf, w.cache, path).1 ==
    if path in w.fs && w.fs[path].content != [] then Some(Served(w.fs[path].content, mimeOf(path))) else None
  }

  /** Whatever were asked now would be answered with the content and MIME type that the file has now. */
  ghost predicate Truthful(mimeOf: MimeOf, w: World) {
    forall path: Path :: AnswersTruly(mimeOf, w, path)
  }

  /** At every moment of the run, the last included. */
  ghost predicate AlwaysTruthful(mimeOf: MimeOf, w: World, events: seq<Event>)
    decreases |events|
  {
    Truthful(mimeOf, w) && (events != [] ==> AlwaysTruthful(mimeOf, Step(mimeOf, w, events[0]), events[1..]))
  }

  /** A write to a cached file raises its time above the cached one, or leaves its content as cached; a
      cached file is removed only if its time was before the epoch. */
  predicate Harmless(c: Cache, e: Event) {
    match e
    case Write(path, file) =>
      var i := Find(c.entries, path);
      i == |c.entries| || file.mtime > c.entries[i].mtime || file.content == c.entries[i].content
    case Remove(path) =>
      var i := Find(c.entries, path);
      i == |c.entries| || c.entries[i].mtime < 0
    case _ => true
  }

  predicate AllHarmless(mimeOf: MimeOf, w: World, events: seq<Event>)
    decreases |events|
  {
    events == [] || (Harmless(w.cache, events[0]) && AllHarmless(mimeOf, Step(mimeOf, w, events[0]), events[1..]))
  }

  /** What is cached was loaded at some time. */
  ghost predicate Loaded(mimeOf: MimeOf, entries: seq<Entry>) {
    DistinctPaths(entries) &&
    forall i :: 0 <= i < |entries| ==> entries[i].mime == mimeOf(entries[i].path) && entries[i].content != []
  }

  /** An entry that would be loaded again, or is what would be loaded. */
  predicate Faithful(fs: FileSystem, e: Entry) {
    IsModified(fs, e) || (e.path in fs && fs[e.path].content == e.content)
  }

  ghost predicate AllFaithful(fs: FileSystem, entries: seq<Entry>) {
    forall i :: 0 <= i < |entries| ==> Faithful(fs, entries[i])
  }

  lemma {:induction false} TruthfulMeans(mimeOf: MimeOf, w: World)
    requires Loaded(mimeOf, w.cache.entries)
    ensures Truthful(mimeOf, w) <==> AllFaithful(w.fs, w.cache.entries)
  {
    var entries := w.cache.entries;
    forall i | 0 <= i < |entries|
      ensures AnswersTruly(mimeOf, w, entries[i].path) <==> Faithful(w.fs, entries[i])
    {
      FindUnique(entries, i);
    }
    if AllFaithful(w.fs, entries) {
      forall path: Path ensures AnswersTruly(mimeOf, w, path) {
        if Find(entries, path) < |entries| { assert Faithful(w.fs, entries[Find(entries, path)]); }
      }
    }
  }

  lemma FrontIsLoaded(fs: FileSystem, mimeOf: MimeOf, e: Entry, rest: seq<Entry>)
    requires Loaded(mimeOf, rest) && e.mime == mimeOf(e.path) && e.content != []
    requires forall i :: 0 <= i < |rest| ==> rest[i].path != e.path
    ensures Loaded(mimeOf, [e] + rest)
    ensures AllFaithful(fs, rest) && Faithful(fs, e) ==> AllFaithful(fs, [e] + rest)
  {
  }

  lemma {:induction false} TrimIsLoaded(fs: FileSystem, mimeOf: MimeOf, entries: seq<Entry>, maxSize: nat)
    requires Loaded(mimeOf, entries)
    ensures Loaded(mimeOf, Trim(entries, maxSize))
    ensures AllFaithful(fs, entries) ==> AllFaithful(fs, Trim(entries, maxSize))
  {
    TrimIsLongest(entries, maxSize);
  }

  /** After a get, the entries are of those before, but for one just loaded. */
  lemma LookupKeepsFaithful(fs: FileSystem, mimeOf: MimeOf, c: Cache, path: Path)
    requires Loaded(mimeOf, c.entries)
    ensures var entries := Lookup(fs, mimeOf, c, path).0.entries;
            Loaded(mimeOf, entries) && (AllFaithful(fs, c.entries) ==> AllFaithful(fs, entries))
  {
    var i, rest := Find(c.entries, path), RemovePath(c.entries, path);
    RemovePathRemoves(c.entries, path);
    assert Miss(c, path).entries == rest && Loaded(mimeOf, rest);
    assert AllFaithful(fs, c.entries) ==> AllFaithful(fs, rest);
    if IsHit(fs, c, path) {
      FrontIsLoaded(fs, mimeOf, c.entries[i], rest);
    } else if LoadFile(fs, mimeOf, path).Some? {
      var e := LoadFile(fs, mimeOf, path).value;
      FrontIsLoaded(fs, mimeOf, e, rest);
      TrimIsLoaded(fs, mimeOf, [e] + rest, c.maxSize);
    }
  }

  lemma StepTruthfulIff(mimeOf: MimeOf, w: World, e: Event)
    requires Loaded(mimeOf, w.cache.entries) && Truthful(mimeOf, w)
    ensures Loaded(mimeOf, Step(mimeOf, w, e).cache.entries)
    ensures Truthful(mimeOf, Step(mimeOf, w, e)) <==> Harmless(w.cache, e)
  {
    var w' := Step(mimeOf, w, e);
    TruthfulMeans(mimeOf, w);
    match e {
      case Ask(path) => LookupKeepsFaithful(w.fs, mimeOf, w.cache, path);
      case SetMaxSize(m) => TrimIsLoaded(w.fs, mimeOf, w.cache.entries, m);
      case Write(path, _) => ChangeIsFaithfulIff(w.fs, w'.fs, w.cache, path);
      case Remove(path) => ChangeIsFaithfulIff(w.fs, w'.fs, w.cache, path);
    }
    TruthfulMeans(mimeOf, w');
  }

  /** A change of one file matters to its own entry only. */
  lemma ChangeIsFaithfulIff(fs: FileSystem, fs': FileSystem, c: Cache, path: Path)
    requires DistinctPaths(c.entries) && AllFaithful(fs, c.entries) && fs' - {path} == fs - {path}
    ensures var i := Find(c.entries, path);
            AllFaithful(fs', c.entries) <==> i == |c.entries| || Faithful(fs', c.entries[i])
  {
    var i := Find(c.entries, path);
    forall j | 0 <= j < |c.entries| && j != i ensures Faithful(fs', c.entries[j]) {
      FindUnique(c.entries, j);
      assert c.entries[j].path != path && c.entries[j].path in fs' - {path} <==> c.entries[j].path in fs - {path};
      assert Faithful(fs, c.entries[j]);
    }
  }

  lemma {:induction false} HarmlessRunIff(mimeOf: MimeOf, w: World, events: seq<Event>)
    requires Loaded(mimeOf, w.cache.entries) && Truthful(mimeOf, w)
    ensures AlwaysTruthful(mimeOf, w, events) <==> AllHarmless(mimeOf, w, events)
    decreases |events|
  {
    if events != [] {
      var w' := Step(mimeOf, w, events[0]);
      StepTruthfulIff(mimeOf, w, events[0]);
      if Truthful(mimeOf, w') { HarmlessRunIff(mimeOf, w', events[1..]); }
    }
  }

  /** Over any run from an empty cache, every get at every moment answers what the file is then, if and
      only if every event of the run is harmless for the cache it meets. */
  lemma {:induction false} TransparentIff(mimeOf: MimeOf, fs: FileSystem, maxSize: nat, events: seq<Event>)
    ensures var w := World(fs, Cache([], maxSize, 0, 0));
            AlwaysTruthful(mimeOf, w, events) <==> AllHarmless(mimeOf, w, events)
  {
    HarmlessRunIff(mimeOf, World(fs, Cache([], maxSize, 0, 0)), events);
  }

  // ----- Stale answers were right once -----

  /** At some moment of the run this was what the file system had to serve. */
  ghost predicate WasServable(mimeOf: MimeOf, start: World, events: seq<Event>, path: Path, answer: Served) {
    exists k :: 0 <= k <= |events| && OnDisk(Happen(mimeOf, start, events[..k]).fs, mimeOf, path) == Some(answer)
  }

  ghost predicate AllWereServable(mimeOf: MimeOf, start: World, events: seq<Event>, entries: seq<Entry>) {
    forall i :: 0 <= i < |entries| ==>
      WasServable(mimeOf, start, events, entries[i].path, Served(entries[i].content, entries[i].mime))
  }

  lemma {:induction false} HappenSnoc(mimeOf: MimeOf, w: World, events: seq<Event>, e: Event)
    ensures Happen(mimeOf, w, events + [e]) == Step(mimeOf, Happen(mimeOf, w, events), e)
    decreases |events|
  {
    if events == [] {
      assert [] + [e] == [e] && [e][1..] == [];
      assert Happen(mimeOf, w, [e]) == Happen(mimeOf, Step(mimeOf, w, e), []);
    } else {
      assert (events + [e])[0] == events[0] && (events + [e])[1..] == events[1..] + [e];
      HappenSnoc(mimeOf, Step(mimeOf, w, events[0]), events[1..], e);
    }
  }

  lemma StillServable(mimeOf: MimeOf, start: World, events: seq<Event>, e: Event, path: Path, answer: Served)
    requires WasServable(mimeOf, start, events, path, answer)
    ensures WasServable(mimeOf, start, events + [e], path, answer)
  {
    var k :| 0 <= k <= |events| && OnDisk(Happen(mimeOf, start, events[..k]).fs, mimeOf, path) == Some(answer);
    assert (events + [e])[..k] == events[..k];
  }

  lemma NowServable(mimeOf: MimeOf, start: World, events: seq<Event>, path: Path, answer: Served)
    requires OnDisk(Happen(mimeOf, start, events).fs, mimeOf, path) == Some(answer)
    ensures WasServable(mimeOf, start, events, path, answer)
  {
    assert events[..|events|] == events;
  }

  /** After a get, each entry is one of those before, or is what the file system has now. */
  lemma EntriesAfterLookup(fs: FileSystem, mimeOf: MimeOf, c: Cache, path: Path)
    ensures forall e :: e in Lookup(fs, mimeOf, c, path).0.entries ==>
              e in c.entries || OnDisk(fs, mimeOf, e.path) == Some(Served(e.content, e.mime))
  {
    if !IsHit(fs, c, path) && LoadFile(fs, mimeOf, path).Some? {
      TrimIsLongest([LoadFile(fs, mimeOf, path).value] + Miss(c, path).entries, c.maxSize);
    }
  }

  lemma EntriesAfterStep(mimeOf: MimeOf, w: World, event: Event)
    ensures var w' := Step(mimeOf, w, event);
            forall e :: e in w'.cache.entries ==>
              e in w.cache.entries || OnDisk(w'.fs, mimeOf, e.path) == Some(Served(e.content, e.mime))
  {
    match event
    case Ask(path) => EntriesAfterLookup(w.fs, mimeOf, w.cache, path);
    case SetMaxSize(m) => TrimIsLongest(w.cache.entries, m);
    case _ =>
  }

  lemma {:induction false} CachedWereServable(mimeOf: MimeOf, start: World, events: seq<Event>)
    requires start.cache.entries == []
    ensures AllWereServable(mimeOf, start, events, Happen(mimeOf, start, events).cache.entries)
    decreases |events|
  {
    if events != [] {
      var before, e := events[..|events| - 1], events[|events| - 1];
      assert events == before + [e];
      CachedWereServable(mimeOf, start, before);
      HappenSnoc(mimeOf, start, before, e);
      var w, w' := Happen(mimeOf, start, before), Happen(mimeOf, start, events);
      EntriesAfterStep(mimeOf, w, e);
      forall i | 0 <= i < |w'.cache.entries|
        ensures WasServable(mimeOf, start, events, w'.cache.entries[i].path,
                            Served(w'.cache.entries[i].content, w'.cache.entries[i].mime))
      {
        var entry := w'.cache.entries[i];
        if entry in w.cache.entries {
          StillServable(mimeOf, start, before, e, entry.path, Served(entry.content, entry.mime));
        } else {
          NowServable(mimeOf, start, events, entry.path, Served(entry.content, entry.mime));
        }
      }
    }
  }

  /** Over any run, orderly or not, whatever a get answers is what the file was at some moment of the run;
      and it answers nothing only if there is nothing now. */
  lemma {:induction false} AnswersWereTrue(mimeOf: MimeOf, fs: FileSystem, maxSize: nat, events: seq<Event>, path: Path)
    ensures var start := World(fs, Cache([], maxSize, 0, 0));
            var w := Happen(mimeOf, start, events);
            match Lookup(w.fs, mimeOf, w.cache, path).1
            case Some(answer) => WasServable(mimeOf, start, events, path, answer)
            case None => path !in w.fs || w.fs[path].content == []
  {
    var start := World(fs, Cache([], maxSize, 0, 0));
    var w := Happen(mimeOf, start, events);
    CachedWereServable(mimeOf, start, events);
    if !IsHit(w.fs, w.cache, path) && LoadFile(w.fs, mimeOf, path).Some? {
      NowServable(mimeOf, start, events, path, OnDisk(w.fs, mimeOf, path).value);
    }
  }

  /** A write within the same clock tick, or a removal, is not seen. */
  lemma StaleAnswers(mimeOf: MimeOf)
    ensures var w := World(map["a" := File("x", 5)], Cache([Entry("a", "x", mimeOf("a"), 5)], 10, 0, 1));
            var written := Step(mimeOf, w, Write("a", File("y", 5)));
            var removed := Step(mimeOf, w, Remove("a"));
            w == Happen(mimeOf, World(map["a" := File("x", 5)], Cache([], 10, 0, 0)), [Ask("a")]) &&
            Lookup(written.fs, mimeOf, written.cache, "a").1 == Some(Served("x", mimeOf("a"))) &&
            Lookup(removed.fs, mimeOf, removed.cache, "a").1 == Some(Served("x", mimeOf("a")))
  {
    var w0 := World(map["a" := File("x", 5)], Cache([], 10, 0, 0));
    var e := Entry("a", "x", mimeOf("a"), 5);
    assert TotalSize([e]) == 1 + TotalSize([e][1..]);
    assert Trim([e], 10) == [e] && [e] + [] == [e];
    assert Step(mimeOf, w0, Ask("a")) == World(w0.fs, Cache([e], 10, 0, 1));
    assert Happen(mimeOf, w0, [Ask("a")]) == Happen(mimeOf, Step(mimeOf, w0, Ask("a")), [Ask("a")][1..]);
  }
}
