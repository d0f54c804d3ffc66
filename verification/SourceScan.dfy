/** `ProjectIntelligenceScanner._scan_files`: a recursive walk that shares its budgets and stops early. */
module SourceScan {
  import opened Text
  import opened Json
  import opened Trees

  /** `NoMetadata` entries cannot be examined, `Unreadable` files not be opened, and `Closed` directories not
      be listed. */
  datatype DirEntry =
    | File(data: string) | Unreadable(size: nat) | Dir(entries: Forest<DirEntry>) | Closed | NoMetadata | Link | Special

  datatype Cause =
    | ProtectedOrExcluded | LinkOrReparsePoint | NotRegularFile | MetadataUnavailable | ContentUnavailable
    | PerFileHashLimit | TotalHashLimit | FileLimitReached

  datatype Listed = Listed(path: string, size: nat, digest: string, contentHashed: bool)

  datatype Limits = Limits(maxFiles: nat, maxFileBytes: nat, maxHashBytes: nat)

  /** The digest that stands for content that was not hashed. */
  function Marker(sha: Hash, path: string, size: nat): string {
    sha(Print(Obj(map["path" := Str(path), "size" := Int(size), "content" := Str("not_hashed")]), Compact, 0))
  }

  datatype Totals = Totals(files: seq<Listed>, omitted: seq<Omission<Cause>>, hashedBytes: nat, truncated: bool)

  const FRESH := Totals([], [], 0, false)

  // ---------------------------------------------------------------- the flat walk

  /** A filtered walk as one list: what is skipped, and the regular files with their contents. */
  datatype Item = Skip(omission: Omission<Cause>) | Regular(path: string, size: nat, data: Option<string>)

  function Items(f: Forest<DirEntry>, prefix: string, x: Filter): seq<Item> {
    match f
    case Nil => []
    case Cons(name, node, rest) =>
      var path := Child(prefix, name);
      (if x(path) then [Skip(Omission(path, ProtectedOrExcluded))]
       else match node
         case File(data) => [Regular(path, |data|, Some(data))]
         case Unreadable(size) => [Regular(path, size, None)]
         case Dir(entries) => Items(entries, path, x)
         case Closed => [Skip(Omission(path, MetadataUnavailable))]
         case NoMetadata => [Skip(Omission(path, MetadataUnavailable))]
         case Link => [Skip(Omission(path, LinkOrReparsePoint))]
         case Special => [Skip(Omission(path, NotRegularFile))])
      + Items(rest, prefix, x)
  }

  function Omit(t: Totals, o: Omission<Cause>): Totals { t.(omitted := t.omitted + [o]) }

  /** A regular file when there is still room in the list. */
  function Take(sha: Hash, limits: Limits, t: Totals, path: string, size: nat, data: Option<string>): Totals {
    var unhashed := t.(files := t.files + [Listed(path, size, Marker(sha, path, size), false)]);
    if size > limits.maxFileBytes then Omit(unhashed, Omission(path, PerFileHashLimit))
    else if t.hashedBytes + size > limits.maxHashBytes then Omit(unhashed, Omission(path, TotalHashLimit)).(truncated := true)
    else if data.None? then Omit(t, Omission(path, ContentUnavailable))
    else t.(files := t.files + [Listed(path, size, sha(data.value), true)], hashedBytes := t.hashedBytes + size)
  }

  /** One item of the walk: the totals after it, and whether the walk goes on. */
  function One(sha: Hash, limits: Limits, t: Totals, item: Item): (Totals, bool) {
    match item
    case Skip(o) => (Omit(t, o), true)
    case Regular(path, size, data) =>
      if |t.files| >= limits.maxFiles then (Omit(t, Omission(".", FileLimitReached)).(truncated := true), false)
      else (Take(sha, limits, t, path, size, data), true)
  }

  /** The scan of a flat list, item by item until the walk stops. */
  function Scanned(sha: Hash, limits: Limits, t: Totals, items: seq<Item>): (Totals, bool)
    decreases |items|
  {
    if items == [] then (t, true)
    else
      var (u, more) := One(sha, limits, t, items[0]);
      if more then Scanned(sha, limits, u, items[1..]) else (u, false)
  }

  lemma {:induction false} ScannedConcat(sha: Hash, limits: Limits, t: Totals, a: seq<Item>, b: seq<Item>)
    ensures var (u, more) := Scanned(sha, limits, t, a);
      Scanned(sha, limits, t, a + b) == if more then Scanned(sha, limits, u, b) else (u, false)
    decreases |a|
  {
    hide One;
    if a == [] {
      assert a + b == b;
    } else {
      assert (a + b)[1..] == a[1..] + b;
      if One(sha, limits, t, a[0]).1 { ScannedConcat(sha, limits, One(sha, limits, t, a[0]).0, a[1..], b); }
    }
  }

  lemma ScannedOne(sha: Hash, limits: Limits, t: Totals, item: Item)
    ensures Scanned(sha, limits, t, [item]) == One(sha, limits, t, item)
  {
    hide One;
    assert [item][1..] == [];
  }

  // ---------------------------------------------------------------- what a scan lists

  /** The regular files of a flat list, in order. */
  function RegularPaths(items: seq<Item>): seq<string> {
    if items == [] then []
    else (if items[0].Regular? then [items[0].path] else []) + RegularPaths(items[1..])
  }

  function PathsOf(files: seq<Listed>): seq<string> { Each((f: Listed) => f.path, files) }

  predicate AllReadable(items: seq<Item>) {
    forall i :: 0 <= i < |items| && items[i].Regular? ==> items[i].data.Some?
  }

  function First(paths: seq<string>, n: nat): seq<string> { if |paths| <= n then paths else paths[..n] }

  predicate LimitHit(omitted: seq<Omission<Cause>>) {
    exists i :: 0 <= i < |omitted| && omitted[i] == Omission(".", FileLimitReached)
  }

  /** No skipped entry of a walk carries the limit reason. */
  predicate HonestSkips(items: seq<Item>) {
    forall i :: 0 <= i < |items| && items[i].Skip? ==> items[i].omission.reason != FileLimitReached
  }

  lemma {:induction false} WalkSkipsHonestly(f: Forest<DirEntry>, prefix: string, x: Filter)
    ensures HonestSkips(Items(f, prefix, x))
    decreases f
  {
    match f
    case Nil =>
    case Cons(name, node, rest) =>
      WalkSkipsHonestly(rest, prefix, x);
      if node.Dir? { WalkSkipsHonestly(node.entries, Child(prefix, name), x); }
  }

  lemma LimitHitSnoc(omitted: seq<Omission<Cause>>, o: Omission<Cause>)
    ensures LimitHit(omitted + [o]) <==> LimitHit(omitted) || o == Omission(".", FileLimitReached)
  {
    if LimitHit(omitted) {
      var i :| 0 <= i < |omitted| && omitted[i] == Omission(".", FileLimitReached);
      assert (omitted + [o])[i] == Omission(".", FileLimitReached);
    }
    assert (omitted + [o])[|omitted|] == o;
  }

  lemma TakeLists(sha: Hash, limits: Limits, t: Totals, path: string, size: nat, data: Option<string>)
    requires data.Some?
    ensures var u := Take(sha, limits, t, path, size, data);
      PathsOf(u.files) == PathsOf(t.files) + [path] && (LimitHit(u.omitted) <==> LimitHit(t.omitted))
  {
    hide Marker, LimitHit;
    LimitHitSnoc(t.omitted, Omission(path, PerFileHashLimit));
    LimitHitSnoc(t.omitted, Omission(path, TotalHashLimit));
  }

  /** From `t` to `u`: the files there was room for were listed in order, and the limit was reported exactly
      when the walk stopped for lack of room. */
  predicate ListsFirst(limits: Limits, t: Totals, u: Totals, more: bool, paths: seq<string>)
    requires |t.files| <= limits.maxFiles
  {
    var room := limits.maxFiles - |t.files|;
    && PathsOf(u.files) == PathsOf(t.files) + First(paths, room)
    && (more <==> |paths| <= room)
    && (LimitHit(u.omitted) <==> LimitHit(t.omitted) || !more)
  }

  lemma ListsAfterSkip(limits: Limits, t: Totals, o: Omission<Cause>, u: Totals, more: bool, paths: seq<string>)
    requires |t.files| <= limits.maxFiles && o.reason != FileLimitReached
    requires ListsFirst(limits, Omit(t, o), u, more, paths)
    ensures ListsFirst(limits, t, u, more, paths)
  {
    hide LimitHit, First;
    LimitHitSnoc(t.omitted, o);
  }

  lemma ListsAfterTake(sha: Hash, limits: Limits, t: Totals, path: string, size: nat, data: string,
                       u: Totals, more: bool, paths: seq<string>)
    requires |t.files| < limits.maxFiles && |Take(sha, limits, t, path, size, Some(data)).files| == |t.files| + 1
    requires ListsFirst(limits, Take(sha, limits, t, path, size, Some(data)), u, more, paths)
    ensures ListsFirst(limits, t, u, more, [path] + paths)
  {
    hide LimitHit, First, Take;
    TakeLists(sha, limits, t, path, size, Some(data));
    var room := limits.maxFiles - |t.files|;
    FirstCons(path, paths, room);
    Regroup(PathsOf(t.files), path, First(paths, room - 1));
  }

  lemma ListsStop(limits: Limits, t: Totals, paths: seq<string>)
    requires |t.files| == limits.maxFiles && paths != []
    ensures ListsFirst(limits, t, Omit(t, Omission(".", FileLimitReached)).(truncated := true), false, paths)
  {
    hide LimitHit;
    LimitHitSnoc(t.omitted, Omission(".", FileLimitReached));
    assert PathsOf(t.files) + [] == PathsOf(t.files);
  }

  lemma ListsNothing(limits: Limits, t: Totals)
    requires |t.files| <= limits.maxFiles
    ensures ListsFirst(limits, t, t, true, [])
  {
    hide LimitHit;
    assert PathsOf(t.files) + [] == PathsOf(t.files);
  }

  lemma RegularHead(items: seq<Item>)
    requires items != []
    ensures RegularPaths(items) == (if items[0].Regular? then [items[0].path] else []) + RegularPaths(items[1..])
    ensures items[0].Skip? ==> RegularPaths(items) == RegularPaths(items[1..])
    ensures AllReadable(items) ==> AllReadable(items[1..]) && (items[0].Regular? ==> items[0].data.Some?)
    ensures HonestSkips(items) ==> HonestSkips(items[1..]) && (items[0].Skip? ==> items[0].omission.reason != FileLimitReached)
  {
  }

  /** The scan lists the files it has room for, in walk order, and reports the limit exactly when it stops. */
  lemma {:induction false} ScannedLists(sha: Hash, limits: Limits, t: Totals, items: seq<Item>)
    requires AllReadable(items) && HonestSkips(items) && |t.files| <= limits.maxFiles
    ensures var (u, more) := Scanned(sha, limits, t, items); ListsFirst(limits, t, u, more, RegularPaths(items))
    decreases |items|
  {
    hide Take, LimitHit, ListsFirst, RegularPaths, AllReadable, HonestSkips;
    if items == [] {
      assert RegularPaths([]) == [] by { NoRegularPaths(); }
      ListsNothing(limits, t);
    } else {
      RegularHead(items);
      var (u, more) := Scanned(sha, limits, t, items);
      match items[0]
      case Skip(o) =>
        ScannedLists(sha, limits, Omit(t, o), items[1..]);
        ListsAfterSkip(limits, t, o, u, more, RegularPaths(items[1..]));
      case Regular(path, size, data) =>
        if |t.files| >= limits.maxFiles {
          ListsStop(limits, t, RegularPaths(items));
        } else {
          TakeCounts(sha, limits, t, path, size, data);
          ScannedLists(sha, limits, Take(sha, limits, t, path, size, data), items[1..]);
          ListsAfterTake(sha, limits, t, path, size, data.value, u, more, RegularPaths(items[1..]));
        }
    }
  }

  lemma NoRegularPaths()
    ensures RegularPaths([]) == []
  {
  }

  lemma TakeCounts(sha: Hash, limits: Limits, t: Totals, path: string, size: nat, data: Option<string>)
    requires data.Some?
    ensures |Take(sha, limits, t, path, size, data).files| == |t.files| + 1
  {
    hide Marker;
  }

  lemma FirstCons(path: string, paths: seq<string>, n: nat)
    requires n > 0
    ensures First([path] + paths, n) == [path] + First(paths, n - 1)
  {
  }

  lemma Regroup(a: seq<string>, path: string, b: seq<string>)
    ensures a + [path] + b == a + ([path] + b)
  {
  }

  /** With everything readable, a scan lists exactly the first `maxFiles` regular files of the filtered walk,
      and reports the file limit exactly when there are more. */
  lemma ScanListsFirstFiles(sha: Hash, limits: Limits, f: Forest<DirEntry>, x: Filter)
    requires AllReadable(Items(f, "", x))
    ensures var (u, more) := Scanned(sha, limits, FRESH, Items(f, "", x)); var paths := RegularPaths(Items(f, "", x));
      && PathsOf(u.files) == First(paths, limits.maxFiles)
      && (LimitHit(u.omitted) <==> |paths| > limits.maxFiles)
  {
    hide Scanned, Items, LimitHit;
    NothingOmitted();
    WalkSkipsHonestly(f, "", x);
    ScannedLists(sha, limits, FRESH, Items(f, "", x));
    assert [] + First(RegularPaths(Items(f, "", x)), limits.maxFiles) == First(RegularPaths(Items(f, "", x)), limits.maxFiles);
  }

  lemma NothingOmitted()
    ensures !LimitHit([])
  {
  }

  // ---------------------------------------------------------------- the hash budget

  function HashedSizes(files: seq<Listed>): nat {
    if files == [] then 0 else
      HashedSizes(files[..|files| - 1]) + if files[|files| - 1].contentHashed then files[|files| - 1].size else 0
  }

  predicate WithinBudget(limits: Limits, t: Totals) {
    && t.hashedBytes == HashedSizes(t.files) && t.hashedBytes <= limits.maxHashBytes && |t.files| <= limits.maxFiles
    && forall i :: 0 <= i < |t.files| && t.files[i].contentHashed ==> t.files[i].size <= limits.maxFileBytes
  }

  lemma HashedSnoc(files: seq<Listed>, e: Listed)
    ensures HashedSizes(files + [e]) == HashedSizes(files) + if e.contentHashed then e.size else 0
  {
    assert (files + [e])[..|files|] == files;
  }

  /** Readable or not, the hashed sizes add up to the reported bytes, which stay within the budget. */
  lemma {:induction false} ScanWithinBudget(sha: Hash, limits: Limits, t: Totals, items: seq<Item>)
    requires WithinBudget(limits, t)
    ensures WithinBudget(limits, Scanned(sha, limits, t, items).0)
    decreases |items|
  {
    hide HashedSizes, Marker;
    if items != [] {
      match items[0]
      case Skip(o) => ScanWithinBudget(sha, limits, Omit(t, o), items[1..]);
      case Regular(path, size, data) =>
        if |t.files| < limits.maxFiles {
          HashedSnoc(t.files, Listed(path, size, Marker(sha, path, size), false));
          if data.Some? { HashedSnoc(t.files, Listed(path, size, sha(data.value), true)); }
          ScanWithinBudget(sha, limits, Take(sha, limits, t, path, size, data), items[1..]);
        }
    }
  }
}
