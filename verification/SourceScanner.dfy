/** The recursive walk as an object: `visit` with the lists and the budgets that it shares. */
module SourceScanner {
  import opened Text
  import opened Trees
  import opened SourceScan
  import opened ScanLaws

  class Scanner {
    const limits: Limits
    var files: seq<Listed>
    var omitted: seq<Omission<Cause>>
    var hashedBytes: nat
    var truncated: bool

    function View(): Totals reads this { Totals(files, omitted, hashedBytes, truncated) }

    constructor (limits: Limits)
      ensures this.limits == limits && View() == FRESH
    {
      this.limits := limits;
      files, omitted, hashedBytes, truncated := [], [], 0, false;
    }

    /** One regular file; the result tells whether the walk goes on. */
    method VisitFile(sha: Hash, path: string, size: nat, data: Option<string>) returns (more: bool)
      modifies this
      ensures (View(), more) == Scanned(sha, limits, old(View()), [Regular(path, size, data)])
    {
      hide Marker;
      ScannedOne(sha, limits, View(), Regular(path, size, data));
      if |files| >= limits.maxFiles {
        truncated := true;
        omitted := omitted + [Omission(".", FileLimitReached)];
        return false;
      }
      more := true;
      if size > limits.maxFileBytes {
        files := files + [Listed(path, size, Marker(sha, path, size), false)];
        omitted := omitted + [Omission(path, PerFileHashLimit)];
        return;
      }
      if hashedBytes + size > limits.maxHashBytes {
        truncated := true;
        files := files + [Listed(path, size, Marker(sha, path, size), false)];
        omitted := omitted + [Omission(path, TotalHashLimit)];
        return;
      }
      if data.None? {
        omitted := omitted + [Omission(path, ContentUnavailable)];
        return;
      }
      hashedBytes := hashedBytes + size;
      files := files + [Listed(path, size, sha(data.value), true)];
    }

    method Skipped(sha: Hash, path: string, reason: Cause)
      modifies this`omitted
      ensures (View(), true) == Scanned(sha, limits, old(View()), [Skip(Omission(path, reason))])
    {
      ScannedOne(sha, limits, View(), Skip(Omission(path, reason)));
      omitted := omitted + [Omission(path, reason)];
    }

    /** `visit`: the walk with its shared budgets does what the scan of the flat list does, stays within the
        budgets, lists the files there is room for, and what it lists and omits is true of the tree. */
    method Visit(sha: Hash, f: Forest<DirEntry>, prefix: string, x: Filter) returns (more: bool)
      modifies this
      ensures (View(), more) == Scanned(sha, limits, old(View()), Items(f, prefix, x))
      ensures WithinBudget(limits, old(View())) ==> WithinBudget(limits, View())
      ensures |old(files)| <= limits.maxFiles && AllReadable(Items(f, prefix, x)) ==>
        ListsFirst(limits, old(View()), View(), more, RegularPaths(Items(f, prefix, x)))
      ensures old(hashedBytes == HashedSizes(files)) ==> ScanTrue(sha, limits, f, prefix, x, old(View()), View(), more)
      decreases f
    {
      hide Scanned, WithinBudget, ListsFirst, AllReadable, RegularPaths, ScanTrue, HashedSizes;
      VisitFacts(sha, limits, View(), f, prefix, x);
      if f.Nil? {
        ScannedNone(sha, limits, View());
        return true;
      }
      ghost var was := View();
      var path := Child(prefix, f.name);
      ghost var mine: seq<Item>;
      more := true;
      if x(path) {
        mine := [Skip(Omission(path, ProtectedOrExcluded))];
        Skipped(sha, path, ProtectedOrExcluded);
      } else {
        match f.node {
          case File(data) =>
            mine := [Regular(path, |data|, Some(data))];
            more := VisitFile(sha, path, |data|, Some(data));
          case Unreadable(size) =>
            mine := [Regular(path, size, None)];
            more := VisitFile(sha, path, size, None);
          case Dir(entries) =>
            mine := Items(entries, path, x);
            more := Visit(sha, entries, path, x);
          case Closed =>
            mine := [Skip(Omission(path, MetadataUnavailable))];
            Skipped(sha, path, MetadataUnavailable);
          case NoMetadata =>
            mine := [Skip(Omission(path, MetadataUnavailable))];
            Skipped(sha, path, MetadataUnavailable);
          case Link =>
            mine := [Skip(Omission(path, LinkOrReparsePoint))];
            Skipped(sha, path, LinkOrReparsePoint);
          case Special =>
            mine := [Skip(Omission(path, NotRegularFile))];
            Skipped(sha, path, NotRegularFile);
        }
      }
      ScannedConcat(sha, limits, was, mine, Items(f.rest, prefix, x));
      assert Items(f, prefix, x) == mine + Items(f.rest, prefix, x);
      if more {
        more := Visit(sha, f.rest, prefix, x);
      }
    }
  }

  lemma VisitFacts(sha: Hash, limits: Limits, t: Totals, f: Forest<DirEntry>, prefix: string, x: Filter)
    ensures var (u, more) := Scanned(sha, limits, t, Items(f, prefix, x));
      && (WithinBudget(limits, t) ==> WithinBudget(limits, u))
      && (|t.files| <= limits.maxFiles && AllReadable(Items(f, prefix, x)) ==>
            ListsFirst(limits, t, u, more, RegularPaths(Items(f, prefix, x))))
      && (t.hashedBytes == HashedSizes(t.files) ==> ScanTrue(sha, limits, f, prefix, x, t, u, more))
  {
    hide ScanTrue, HashedSizes, Scanned, Items, WithinBudget, ListsFirst, AllReadable, RegularPaths;
    if WithinBudget(limits, t) { ScanWithinBudget(sha, limits, t, Items(f, prefix, x)); }
    if t.hashedBytes == HashedSizes(t.files) { ScanIsTrue(sha, limits, f, prefix, x, t); }
    if |t.files| <= limits.maxFiles && AllReadable(Items(f, prefix, x)) {
      WalkSkipsHonestly(f, prefix, x);
      ScannedLists(sha, limits, t, Items(f, prefix, x));
    }
  }

  lemma ScannedNone(sha: Hash, limits: Limits, t: Totals)
    ensures Scanned(sha, limits, t, []) == (t, true)
  {
  }

  /** `_scan_files`: a walk of the whole source with nothing listed yet. */
  method ScanFiles(sha: Hash, limits: Limits, source: Forest<DirEntry>, x: Filter) returns (t: Totals, more: bool)
    ensures ScanTrue(sha, limits, source, "", x, FRESH, t, more) && WithinBudget(limits, t)
    ensures AllReadable(Items(source, "", x)) ==>
      PathsOf(t.files) == First(RegularPaths(Items(source, "", x)), limits.maxFiles)
  {
    hide ScanTrue, AllReadable, RegularPaths, LimitHit;
    var scanner := new Scanner(limits);
    more := scanner.Visit(sha, source, "", x);
    t := scanner.View();
    assert [] + First(RegularPaths(Items(source, "", x)), limits.maxFiles) == First(RegularPaths(Items(source, "", x)), limits.maxFiles);
  }
}
