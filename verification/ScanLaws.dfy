/** What every entry and every omission of a scan means, stated on the tree that was walked. */
module ScanLaws {
  import opened Text
  import opened Json
  import opened JsonShortest
  import opened Trees
  import opened SourceScan

  /** The walk comes upon this entry: no directory above it is excluded. */
  predicate Met(f: Forest<DirEntry>, prefix: string, x: Filter, path: string, node: DirEntry)
    decreases f
  {
    f.Cons? &&
    var here := Child(prefix, f.name);
    || (path == here && node == f.node)
    || (!x(here) && f.node.Dir? && Met(f.node.entries, here, x, path, node))
    || Met(f.rest, prefix, x, path, node)
  }

  predicate IsFile(x: Filter, path: string, node: DirEntry) { !x(path) && (node.File? || node.Unreadable?) }

  function SizeOf(node: DirEntry): nat {
    match node
    case File(data) => |data|
    case Unreadable(size) => size
    case _ => 0
  }

  /** The file keeps within the limit of one file, and within what is left of the limit of all. */
  predicate Fits(limits: Limits, used: nat, size: nat) { size <= limits.maxFileBytes && used + size <= limits.maxHashBytes }

  /** What stands for content that was not hashed. */
  function NotHashed(path: string, size: nat): string {
    "{\"content\":\"not_hashed\",\"path\":" + Quote(path) + ",\"size\":" + Digits(size) + "}"
  }

  /** A listed file is hashed exactly if it fits; then its digest is that of its bytes, and else the reason is
      noted. */
  predicate Truthful(sha: Hash, limits: Limits, node: DirEntry, e: Listed, used: nat, noted: seq<Omission<Cause>>) {
    && e.size == SizeOf(node) && (e.contentHashed <==> Fits(limits, used, e.size))
    && (e.contentHashed ==> node.File? && e.digest == sha(node.data))
    && (!e.contentHashed ==>
          e.digest == sha(NotHashed(e.path, e.size))
          && Omission(e.path, if e.size > limits.maxFileBytes then PerFileHashLimit else TotalHashLimit) in noted)
  }

  /** Why an entry that the walk comes upon can be noted as omitted. */
  predicate Because(limits: Limits, x: Filter, path: string, node: DirEntry, reason: Cause) {
    match reason
    case ProtectedOrExcluded => x(path)
    case LinkOrReparsePoint => !x(path) && node.Link?
    case NotRegularFile => !x(path) && node.Special?
    case MetadataUnavailable => !x(path) && (node.Closed? || node.NoMetadata?)
    case ContentUnavailable => !x(path) && node.Unreadable? && node.size <= limits.maxFileBytes
    case PerFileHashLimit => IsFile(x, path, node) && SizeOf(node) > limits.maxFileBytes
    case TotalHashLimit => IsFile(x, path, node) && SizeOf(node) <= limits.maxFileBytes
    case FileLimitReached => false
  }

  ghost predicate ListedTruly(sha: Hash, limits: Limits, f: Forest<DirEntry>, prefix: string, x: Filter,
                              files: seq<Listed>, i: nat, noted: seq<Omission<Cause>>)
    requires i < |files|
  {
    exists node ::
      Met(f, prefix, x, files[i].path, node) && IsFile(x, files[i].path, node)
      && Truthful(sha, limits, node, files[i], HashedSizes(files[..i]), noted)
  }

  ghost predicate NotedTruly(limits: Limits, f: Forest<DirEntry>, prefix: string, x: Filter, o: Omission<Cause>, more: bool) {
    || (exists node :: Met(f, prefix, x, o.path, node) && Because(limits, x, o.path, node, o.reason))
    || (o == Omission(".", FileLimitReached) && !more)
  }

  /** The entry is listed, or omitted for a reason that it gives. */
  predicate Reported(limits: Limits, x: Filter, path: string, node: DirEntry, files: seq<Listed>, noted: seq<Omission<Cause>>) {
    || (IsFile(x, path, node) && exists i :: 0 <= i < |files| && files[i].path == path && files[i].size == SizeOf(node))
    || (exists j :: 0 <= j < |noted| && noted[j].path == path && Because(limits, x, path, node, noted[j].reason))
  }

  /** The totals stopped short of the whole content. */
  predicate Cut(noted: seq<Omission<Cause>>) {
    exists j :: 0 <= j < |noted| && (noted[j].reason == TotalHashLimit || noted[j].reason == FileLimitReached)
  }

  /** From `t` to `u` a walk of this tree listed and omitted what the limits ask for: every new entry is a file
      of the walk and truly described, every new omission has its reason, an undisturbed walk reports
      everything it comes upon, and the totals say whether they were cut short. */
  ghost predicate ScanTrue(sha: Hash, limits: Limits, f: Forest<DirEntry>, prefix: string, x: Filter, t: Totals, u: Totals,
                           more: bool)
  {
    && t.files <= u.files && t.omitted <= u.omitted &&
    var noted := u.omitted[|t.omitted|..];
    && (forall i :: |t.files| <= i < |u.files| ==> ListedTruly(sha, limits, f, prefix, x, u.files, i, noted))
    && (forall j :: 0 <= j < |noted| ==> NotedTruly(limits, f, prefix, x, noted[j], more))
    && (more ==> forall path, node :: Met(f, prefix, x, path, node) && (x(path) || !node.Dir?) ==>
          Reported(limits, x, path, node, u.files[|t.files|..], noted))
    && (u.truncated <==> t.truncated || Cut(noted))
  }

  // ---------------------------------------------------------------- the flat walk and the tree

  /** What the flat walk makes of an entry that is not a directory to enter. */
  function Shown(x: Filter, path: string, node: DirEntry): Item
    requires x(path) || !node.Dir?
  {
    if x(path) then Skip(Omission(path, ProtectedOrExcluded))
    else match node
      case File(data) => Regular(path, |data|, Some(data))
      case Unreadable(size) => Regular(path, size, None)
      case Closed => Skip(Omission(path, MetadataUnavailable))
      case NoMetadata => Skip(Omission(path, MetadataUnavailable))
      case Link => Skip(Omission(path, LinkOrReparsePoint))
      case Special => Skip(Omission(path, NotRegularFile))
  }

  predicate Shows(x: Filter, path: string, node: DirEntry, item: Item) { (x(path) || !node.Dir?) && item == Shown(x, path, node) }

  lemma {:induction false} ItemsAreMet(f: Forest<DirEntry>, prefix: string, x: Filter, item: Item) returns (path: string, node: DirEntry)
    requires item in Items(f, prefix, x)
    ensures Met(f, prefix, x, path, node) && Shows(x, path, node, item)
    decreases f
  {
    if item in Items(f.rest, prefix, x) {
      path, node := ItemsAreMet(f.rest, prefix, x, item);
    } else if !x(Child(prefix, f.name)) && f.node.Dir? {
      path, node := ItemsAreMet(f.node.entries, Child(prefix, f.name), x, item);
    } else {
      path, node := Child(prefix, f.name), f.node;
    }
  }

  lemma {:induction false} MetAreItems(f: Forest<DirEntry>, prefix: string, x: Filter, path: string, node: DirEntry)
    requires Met(f, prefix, x, path, node) && (x(path) || !node.Dir?)
    ensures Shown(x, path, node) in Items(f, prefix, x)
    decreases f
  {
    var here := Child(prefix, f.name);
    if Met(f.rest, prefix, x, path, node) {
      MetAreItems(f.rest, prefix, x, path, node);
    } else if !x(here) && f.node.Dir? && Met(f.node.entries, here, x, path, node) {
      MetAreItems(f.node.entries, here, x, path, node);
    }
  }

  // ---------------------------------------------------------------- one item

  /** The same for a flat list: what the list says of an entry. */
  predicate ItemTruthful(sha: Hash, limits: Limits, item: Item, e: Listed, used: nat, noted: seq<Omission<Cause>>) {
    && item.Regular? && e.path == item.path && e.size == item.size && (e.contentHashed <==> Fits(limits, used, e.size))
    && (e.contentHashed ==> item.data.Some? && e.digest == sha(item.data.value))
    && (!e.contentHashed ==>
          e.digest == sha(NotHashed(e.path, e.size))
          && Omission(e.path, if e.size > limits.maxFileBytes then PerFileHashLimit else TotalHashLimit) in noted)
  }

  predicate ItemBecause(limits: Limits, item: Item, o: Omission<Cause>) {
    match item
    case Skip(skipped) => o == skipped
    case Regular(path, size, data) =>
      o.path == path &&
      (if size > limits.maxFileBytes then o.reason == PerFileHashLimit
       else o.reason == TotalHashLimit || (o.reason == ContentUnavailable && data.None?))
  }

  predicate ItemReported(limits: Limits, item: Item, files: seq<Listed>, noted: seq<Omission<Cause>>) {
    match item
    case Skip(skipped) => skipped in noted
    case Regular(path, size, data) =>
      (exists i :: 0 <= i < |files| && files[i].path == path && files[i].size == size)
      || (size <= limits.maxFileBytes && data.None? && Omission(path, ContentUnavailable) in noted)
  }

  ghost predicate FileTrue(sha: Hash, limits: Limits, items: seq<Item>, files: seq<Listed>, i: nat, noted: seq<Omission<Cause>>)
    requires i < |files|
  {
    exists item :: item in items && ItemTruthful(sha, limits, item, files[i], HashedSizes(files[..i]), noted)
  }

  ghost predicate NoteTrue(limits: Limits, items: seq<Item>, o: Omission<Cause>, more: bool) {
    (exists item :: item in items && ItemBecause(limits, item, o)) || (o == Omission(".", FileLimitReached) && !more)
  }

  predicate Extends(t: Totals, u: Totals) { t.files <= u.files && t.omitted <= u.omitted }

  /** What the totals gained. */
  function NewFiles(t: Totals, u: Totals): seq<Listed>
    requires Extends(t, u)
  {
    u.files[|t.files|..]
  }

  function Noted(t: Totals, u: Totals): seq<Omission<Cause>>
    requires Extends(t, u)
  {
    u.omitted[|t.omitted|..]
  }

  ghost predicate FilesTrue(sha: Hash, limits: Limits, items: seq<Item>, t: Totals, u: Totals)
    requires Extends(t, u)
  {
    forall i :: |t.files| <= i < |u.files| ==> FileTrue(sha, limits, items, u.files, i, Noted(t, u))
  }

  ghost predicate NotesTrue(limits: Limits, items: seq<Item>, t: Totals, u: Totals, more: bool)
    requires Extends(t, u)
  {
    forall o :: o in Noted(t, u) ==> NoteTrue(limits, items, o, more)
  }

  predicate AllReported(limits: Limits, items: seq<Item>, t: Totals, u: Totals)
    requires Extends(t, u)
  {
    forall item :: item in items ==> ItemReported(limits, item, NewFiles(t, u), Noted(t, u))
  }

  ghost predicate FlatTrue(sha: Hash, limits: Limits, items: seq<Item>, t: Totals, u: Totals, more: bool) {
    && Extends(t, u) && u.hashedBytes == HashedSizes(u.files)
    && FilesTrue(sha, limits, items, t, u) && NotesTrue(limits, items, t, u, more)
    && (more ==> AllReported(limits, items, t, u)) && (u.truncated <==> t.truncated || Cut(Noted(t, u)))
  }

  /** No skipped entry carries the reason of a limit. */
  predicate PlainSkips(items: seq<Item>) {
    forall item :: item in items && item.Skip? ==> item.omission.reason != FileLimitReached && item.omission.reason != TotalHashLimit
  }

  lemma NotHashedText(sha: Hash, path: string, size: nat)
    ensures Marker(sha, path, size) == sha(NotHashed(path, size))
  {
    hide Digits, Quote, Print;
    var fields := map["path" := Str(path), "size" := Int(size), "content" := Str("not_hashed")];
    var keys := ["content", "path", "size"];
    assert Ascending(keys) by { assert keys[0][0] == 'c' && keys[1][0] == 'p' && keys[2][0] == 's'; }
    MembersAscend(fields, keys);
    MarkerText(fields, path, size);
  }

  lemma MarkerText(fields: map<string, Json>, path: string, size: nat)
    requires fields == map["path" := Str(path), "size" := Int(size), "content" := Str("not_hashed")]
    ensures "{" + Joined(fields, ["content", "path", "size"]) + "}" == NotHashed(path, size)
  {
    hide Joined, Quote, Digits;
    assert "content"[0] == 'c' && "path"[0] == 'p' && "size"[0] == 's';
    JoinedThree(fields, "content", "path", "size");
    MarkerQuotes();
    var content := "\"" + "content" + "\"" + ":" + ("\"" + "not_hashed" + "\"");
    assert content == "\"content\":\"not_hashed\"";
    Pieces(content, Quote(path), Digits(size));
  }

  lemma MarkerQuotes()
    ensures Quote("content") == "\"" + "content" + "\"" && Quote("not_hashed") == "\"" + "not_hashed" + "\""
    ensures Quote("path") == "\"" + "path" + "\"" && Quote("size") == "\"" + "size" + "\""
  {
    hide Quote;
    PlainQuote("content");
    PlainQuote("not_hashed");
    PlainQuote("path");
    PlainQuote("size");
  }

  lemma Pieces(content: string, path: string, size: string)
    requires content == "\"content\":\"not_hashed\""
    ensures "{" + (content + "," + (("\"" + "path" + "\"") + ":" + path + "," + (("\"" + "size" + "\"") + ":" + size))) + "}"
         == "{\"content\":\"not_hashed\",\"path\":" + path + ",\"size\":" + size + "}"
  {
    assert "{" + content + "," + ("\"" + "path" + "\"" + ":") == "{\"content\":\"not_hashed\",\"path\":";
    assert "," + ("\"" + "size" + "\"" + ":") == ",\"size\":";
  }

  lemma JoinedThree(fields: map<string, Json>, a: string, b: string, c: string)
    requires a in fields && b in fields && c in fields
    ensures Joined(fields, [a, b, c]) == Member(fields, a) + "," + (Member(fields, b) + "," + Member(fields, c))
  {
    hide Print, Quote;
    var keys := [a, b, c];
    assert keys[1..] == [b, c] && [b, c][1..] == [c];
    assert Joined(fields, [c]) == Member(fields, c);
    assert Joined(fields, [b, c]) == Member(fields, b) + "," + Joined(fields, [c]);
  }

  function Member(fields: map<string, Json>, k: string): string
    requires k in fields
  {
    Quote(k) + ":" + Print(fields[k], Compact, 0)
  }

  predicate Unescaped(t: string) { forall i :: 0 <= i < |t| ==> 'A' <= t[i] <= 'z' && t[i] != '\\' }

  lemma {:induction false} PlainQuote(t: string)
    requires Unescaped(t)
    ensures Quote(t) == "\"" + t + "\""
  {
    if t != "" {
      PlainQuote(t[1..]);
      PlainEscape(t[1..]);
      assert t == [t[0]] + t[1..];
    }
  }

  lemma {:induction false} PlainEscape(t: string)
    requires Unescaped(t)
    ensures Escape(t) == t
  {
    if t != "" {
      PlainEscape(t[1..]);
      assert t == [t[0]] + t[1..];
    }
  }

  // ---------------------------------------------------------------- the flat scan

  /** The totals gained these files and notes. */
  predicate Gains(t: Totals, u: Totals, files: seq<Listed>, noted: seq<Omission<Cause>>) {
    u.files == t.files + files && u.omitted == t.omitted + noted
  }

  lemma GainsNew(t: Totals, u: Totals, files: seq<Listed>, noted: seq<Omission<Cause>>)
    requires Gains(t, u, files, noted)
    ensures Extends(t, u) && NewFiles(t, u) == files && Noted(t, u) == noted
  {
  }

  lemma CutOne(o: Omission<Cause>)
    ensures Cut([o]) <==> o.reason == TotalHashLimit || o.reason == FileLimitReached
    ensures !Cut([])
  {
    assert [o][0] == o;
  }

  /** An item after which nothing is listed. */
  lemma NotesOne(sha: Hash, limits: Limits, t: Totals, u: Totals, item: Item, o: Omission<Cause>, more: bool)
    requires t.hashedBytes == HashedSizes(t.files) && u.hashedBytes == t.hashedBytes && Gains(t, u, [], [o])
    requires ItemBecause(limits, item, o) || (o == Omission(".", FileLimitReached) && !more)
    requires more ==> ItemReported(limits, item, [], [o])
    requires u.truncated <==> t.truncated || o.reason == TotalHashLimit || o.reason == FileLimitReached
    ensures FlatTrue(sha, limits, [item], t, u, more)
  {
    hide HashedSizes, ItemBecause, ItemReported, Cut;
    GainsNew(t, u, [], [o]);
    assert t.files + [] == t.files;
    CutOne(o);
    assert item in [item];
  }

  /** An item that is listed, with at most one note. */
  lemma ListsOne(sha: Hash, limits: Limits, t: Totals, u: Totals, item: Item, e: Listed, noted: seq<Omission<Cause>>)
    requires t.hashedBytes == HashedSizes(t.files) && Gains(t, u, [e], noted)
    requires u.hashedBytes == t.hashedBytes + if e.contentHashed then e.size else 0
    requires ItemTruthful(sha, limits, item, e, t.hashedBytes, noted)
    requires noted == [] || (exists o :: noted == [o] && ItemBecause(limits, item, o))
    requires u.truncated <==> t.truncated || Cut(noted)
    ensures FlatTrue(sha, limits, [item], t, u, true)
  {
    hide HashedSizes, ItemBecause, Cut, NotHashed, Fits;
    GainsNew(t, u, [e], noted);
    HashedSnoc(t.files, e);
    assert u.files[..|t.files|] == t.files && u.files[|t.files|] == e;
    assert item in [item];
    assert [e][0].path == item.path;
    assert FileTrue(sha, limits, [item], u.files, |t.files|, noted);
  }

  /** One item of the walk. */
  lemma OneTrue(sha: Hash, limits: Limits, t: Totals, item: Item)
    requires t.hashedBytes == HashedSizes(t.files) && PlainSkips([item])
    ensures var (u, more) := One(sha, limits, t, item); FlatTrue(sha, limits, [item], t, u, more)
  {
    hide HashedSizes, Marker, NotHashed, FlatTrue, Cut;
    assert item in [item];
    var (u, more) := One(sha, limits, t, item);
    match item
    case Skip(o) => NotesOne(sha, limits, t, u, item, o, true);
    case Regular(path, size, data) =>
      if |t.files| >= limits.maxFiles {
        NotesOne(sha, limits, t, u, item, Omission(".", FileLimitReached), false);
      } else {
        TakeTrue(sha, limits, t, path, size, data);
      }
  }

  lemma TakeTrue(sha: Hash, limits: Limits, t: Totals, path: string, size: nat, data: Option<string>)
    requires t.hashedBytes == HashedSizes(t.files)
    ensures FlatTrue(sha, limits, [Regular(path, size, data)], t, Take(sha, limits, t, path, size, data), true)
  {
    hide HashedSizes, Marker, NotHashed, FlatTrue, Cut;
    var item, u := Regular(path, size, data), Take(sha, limits, t, path, size, data);
    var unhashed := Listed(path, size, Marker(sha, path, size), false);
    NotHashedText(sha, path, size);
    CutOne(Omission(path, TotalHashLimit));
    CutOne(Omission(path, PerFileHashLimit));
    if size > limits.maxFileBytes {
      ListsOne(sha, limits, t, u, item, unhashed, [Omission(path, PerFileHashLimit)]);
    } else if t.hashedBytes + size > limits.maxHashBytes {
      ListsOne(sha, limits, t, u, item, unhashed, [Omission(path, TotalHashLimit)]);
    } else if data.None? {
      NotesOne(sha, limits, t, u, item, Omission(path, ContentUnavailable), true);
    } else {
      assert t.omitted + [] == t.omitted;
      ListsOne(sha, limits, t, u, item, Listed(path, size, sha(data.value), true), []);
    }
  }

  // ---------------------------------------------------------------- stretches of the walk

  lemma TrueWithMore(sha: Hash, limits: Limits, item: Item, e: Listed, used: nat, noted: seq<Omission<Cause>>, all: seq<Omission<Cause>>)
    requires ItemTruthful(sha, limits, item, e, used, noted) && forall o :: o in noted ==> o in all
    ensures ItemTruthful(sha, limits, item, e, used, all)
  {
    hide NotHashed, Fits;
  }

  lemma FilesCompose(sha: Hash, limits: Limits, a: seq<Item>, b: seq<Item>, t: Totals, u: Totals, v: Totals)
    requires Extends(t, u) && Extends(u, v) && FilesTrue(sha, limits, a, t, u) && FilesTrue(sha, limits, b, u, v)
    ensures Extends(t, v) && FilesTrue(sha, limits, a + b, t, v)
  {
    hide HashedSizes, ItemTruthful;
    NewCompose(t, u, v);
    forall i | |t.files| <= i < |v.files| ensures FileTrue(sha, limits, a + b, v.files, i, Noted(t, v)) {
      if i < |u.files| {
        assert u.files[..i] == v.files[..i];
        assert FileTrue(sha, limits, a, u.files, i, Noted(t, u));
        var item :| item in a && ItemTruthful(sha, limits, item, u.files[i], HashedSizes(u.files[..i]), Noted(t, u));
        TrueWithMore(sha, limits, item, v.files[i], HashedSizes(v.files[..i]), Noted(t, u), Noted(t, v));
        assert item in a + b;
      } else {
        assert FileTrue(sha, limits, b, v.files, i, Noted(u, v));
        var item :| item in b && ItemTruthful(sha, limits, item, v.files[i], HashedSizes(v.files[..i]), Noted(u, v));
        TrueWithMore(sha, limits, item, v.files[i], HashedSizes(v.files[..i]), Noted(u, v), Noted(t, v));
        assert item in a + b;
      }
    }
  }

  lemma NewCompose(t: Totals, u: Totals, v: Totals)
    requires Extends(t, u) && Extends(u, v)
    ensures Extends(t, v) && NewFiles(t, v) == NewFiles(t, u) + NewFiles(u, v) && Noted(t, v) == Noted(t, u) + Noted(u, v)
  {
  }

  lemma NotesCompose(limits: Limits, a: seq<Item>, b: seq<Item>, t: Totals, u: Totals, v: Totals, more: bool)
    requires Extends(t, u) && Extends(u, v) && NotesTrue(limits, a, t, u, true) && NotesTrue(limits, b, u, v, more)
    ensures Extends(t, v) && NotesTrue(limits, a + b, t, v, more)
  {
    hide ItemBecause;
    NewCompose(t, u, v);
    forall o | o in Noted(t, v) ensures NoteTrue(limits, a + b, o, more) {
      if o in Noted(t, u) {
        var item :| item in a && ItemBecause(limits, item, o);
        assert item in a + b;
      } else if o != Omission(".", FileLimitReached) || more {
        var item :| item in b && ItemBecause(limits, item, o);
        assert item in a + b;
      }
    }
  }

  lemma ReportedWithMore(limits: Limits, item: Item, files: seq<Listed>, noted: seq<Omission<Cause>>, before: seq<Listed>,
                         after: seq<Listed>, all: seq<Omission<Cause>>)
    requires ItemReported(limits, item, files, noted) && forall o :: o in noted ==> o in all
    ensures ItemReported(limits, item, before + files + after, all)
  {
    if item.Regular? {
      if i :| 0 <= i < |files| && files[i].path == item.path && files[i].size == item.size {
        assert (before + files + after)[|before| + i] == files[i];
      }
    }
  }

  lemma ReportsCompose(limits: Limits, a: seq<Item>, b: seq<Item>, t: Totals, u: Totals, v: Totals)
    requires Extends(t, u) && Extends(u, v) && AllReported(limits, a, t, u) && AllReported(limits, b, u, v)
    ensures Extends(t, v) && AllReported(limits, a + b, t, v)
  {
    hide ItemReported;
    NewCompose(t, u, v);
    var first, second := NewFiles(t, u), NewFiles(u, v);
    assert [] + first + second == first + second && first + second + [] == first + second;
    forall item | item in a + b ensures ItemReported(limits, item, NewFiles(t, v), Noted(t, v)) {
      if item in a {
        ReportedWithMore(limits, item, first, Noted(t, u), [], second, Noted(t, v));
      } else {
        ReportedWithMore(limits, item, second, Noted(u, v), first, [], Noted(t, v));
      }
    }
  }

  lemma CutConcat(a: seq<Omission<Cause>>, b: seq<Omission<Cause>>)
    ensures Cut(a + b) <==> Cut(a) || Cut(b)
  {
    if Cut(a) {
      var j :| 0 <= j < |a| && (a[j].reason == TotalHashLimit || a[j].reason == FileLimitReached);
      assert (a + b)[j] == a[j];
    }
    if Cut(b) {
      var j :| 0 <= j < |b| && (b[j].reason == TotalHashLimit || b[j].reason == FileLimitReached);
      assert (a + b)[|a| + j] == b[j];
    }
  }

  lemma FlatCompose(sha: Hash, limits: Limits, a: seq<Item>, b: seq<Item>, t: Totals, u: Totals, v: Totals, more: bool)
    requires FlatTrue(sha, limits, a, t, u, true) && FlatTrue(sha, limits, b, u, v, more)
    ensures FlatTrue(sha, limits, a + b, t, v, more)
  {
    hide FilesTrue, NotesTrue, AllReported, Cut, HashedSizes;
    FilesCompose(sha, limits, a, b, t, u, v);
    NotesCompose(limits, a, b, t, u, v, more);
    if more { ReportsCompose(limits, a, b, t, u, v); }
    NewCompose(t, u, v);
    CutConcat(Noted(t, u), Noted(u, v));
  }

  /** A walk that stopped for good says nothing of what it did not come to. */
  lemma FlatStops(sha: Hash, limits: Limits, a: seq<Item>, b: seq<Item>, t: Totals, u: Totals)
    requires FlatTrue(sha, limits, a, t, u, false)
    ensures FlatTrue(sha, limits, a + b, t, u, false)
  {
    hide ItemTruthful, ItemBecause, Cut, HashedSizes;
    forall i | |t.files| <= i < |u.files| ensures FileTrue(sha, limits, a + b, u.files, i, Noted(t, u)) {
      assert FileTrue(sha, limits, a, u.files, i, Noted(t, u));
      var item :| item in a && ItemTruthful(sha, limits, item, u.files[i], HashedSizes(u.files[..i]), Noted(t, u));
      assert item in a + b;
    }
    forall o | o in Noted(t, u) ensures NoteTrue(limits, a + b, o, false) {
      assert NoteTrue(limits, a, o, false);
      if item :| item in a && ItemBecause(limits, item, o) { assert item in a + b; }
    }
  }

  lemma FlatNothing(sha: Hash, limits: Limits, t: Totals)
    requires t.hashedBytes == HashedSizes(t.files)
    ensures FlatTrue(sha, limits, [], t, t, true)
  {
    hide HashedSizes;
  }

  lemma {:induction false} ScannedTrue(sha: Hash, limits: Limits, t: Totals, items: seq<Item>)
    requires t.hashedBytes == HashedSizes(t.files) && PlainSkips(items)
    ensures var (u, more) := Scanned(sha, limits, t, items); FlatTrue(sha, limits, items, t, u, more)
    decreases |items|
  {
    hide One, FlatTrue, HashedSizes;
    if items == [] {
      FlatNothing(sha, limits, t);
    } else {
      var (u, more) := One(sha, limits, t, items[0]);
      assert items == [items[0]] + items[1..];
      OneTrue(sha, limits, t, items[0]);
      if more {
        StillCounted(sha, limits, [items[0]], t, u, true);
        ScannedTrue(sha, limits, u, items[1..]);
        var (v, further) := Scanned(sha, limits, u, items[1..]);
        FlatCompose(sha, limits, [items[0]], items[1..], t, u, v, further);
      } else {
        FlatStops(sha, limits, [items[0]], items[1..], t, u);
      }
    }
  }

  lemma StillCounted(sha: Hash, limits: Limits, items: seq<Item>, t: Totals, u: Totals, more: bool)
    requires FlatTrue(sha, limits, items, t, u, more)
    ensures u.hashedBytes == HashedSizes(u.files)
  {
    hide HashedSizes, FilesTrue, NotesTrue, AllReported, Cut;
  }

  // ---------------------------------------------------------------- the tree

  lemma WalkSkipsPlainly(f: Forest<DirEntry>, prefix: string, x: Filter)
    ensures PlainSkips(Items(f, prefix, x))
  {
    hide Items, Met;
    forall item | item in Items(f, prefix, x) && item.Skip?
      ensures item.omission.reason != FileLimitReached && item.omission.reason != TotalHashLimit
    {
      var path, node := ItemsAreMet(f, prefix, x, item);
    }
  }

  lemma ListedFromItem(sha: Hash, limits: Limits, f: Forest<DirEntry>, prefix: string, x: Filter, files: seq<Listed>, i: nat,
                       noted: seq<Omission<Cause>>)
    requires i < |files| && FileTrue(sha, limits, Items(f, prefix, x), files, i, noted)
    ensures ListedTruly(sha, limits, f, prefix, x, files, i, noted)
  {
    hide Items, Met, HashedSizes, NotHashed, Fits;
    var item :| item in Items(f, prefix, x) && ItemTruthful(sha, limits, item, files[i], HashedSizes(files[..i]), noted);
    var path, node := ItemsAreMet(f, prefix, x, item);
    assert IsFile(x, path, node) && path == files[i].path;
  }

  lemma NotedFromItem(limits: Limits, f: Forest<DirEntry>, prefix: string, x: Filter, o: Omission<Cause>, more: bool)
    requires NoteTrue(limits, Items(f, prefix, x), o, more)
    ensures NotedTruly(limits, f, prefix, x, o, more)
  {
    hide Items, Met;
    if o != Omission(".", FileLimitReached) || more {
      var item :| item in Items(f, prefix, x) && ItemBecause(limits, item, o);
      var path, node := ItemsAreMet(f, prefix, x, item);
      assert path == o.path && Because(limits, x, o.path, node, o.reason);
    }
  }

  lemma ReportedFromItem(limits: Limits, x: Filter, path: string, node: DirEntry, files: seq<Listed>, noted: seq<Omission<Cause>>)
    requires (x(path) || !node.Dir?) && ItemReported(limits, Shown(x, path, node), files, noted)
    ensures Reported(limits, x, path, node, files, noted)
  {
    var item := Shown(x, path, node);
    if item.Skip? {
      var j :| 0 <= j < |noted| && noted[j] == item.omission;
      assert noted[j].path == path && Because(limits, x, path, node, noted[j].reason);
    } else if i :| 0 <= i < |files| && files[i].path == path && files[i].size == item.size {
      assert IsFile(x, path, node) && files[i].size == SizeOf(node);
    } else {
      var j :| 0 <= j < |noted| && noted[j] == Omission(path, ContentUnavailable);
      assert noted[j].path == path && Because(limits, x, path, node, noted[j].reason);
    }
  }

  /** A scan from totals whose bytes are counted is true of the tree it walked. */
  lemma ScanIsTrue(sha: Hash, limits: Limits, f: Forest<DirEntry>, prefix: string, x: Filter, t: Totals)
    requires t.hashedBytes == HashedSizes(t.files)
    ensures var (u, more) := Scanned(sha, limits, t, Items(f, prefix, x)); ScanTrue(sha, limits, f, prefix, x, t, u, more)
  {
    hide Scanned, Items, Met, HashedSizes, ItemReported, Reported, Cut, ListedTruly, NotedTruly, FileTrue, NoteTrue;
    var items := Items(f, prefix, x);
    var (u, more) := Scanned(sha, limits, t, items);
    WalkSkipsPlainly(f, prefix, x);
    ScannedTrue(sha, limits, t, items);
    var noted := Noted(t, u);
    forall i | |t.files| <= i < |u.files| ensures ListedTruly(sha, limits, f, prefix, x, u.files, i, noted) {
      ListedFromItem(sha, limits, f, prefix, x, u.files, i, noted);
    }
    forall j | 0 <= j < |noted| ensures NotedTruly(limits, f, prefix, x, noted[j], more) {
      assert noted[j] in noted;
      NotedFromItem(limits, f, prefix, x, noted[j], more);
    }
    if more {
      forall path, node | Met(f, prefix, x, path, node) && (x(path) || !node.Dir?)
        ensures Reported(limits, x, path, node, NewFiles(t, u), noted)
      {
        MetAreItems(f, prefix, x, path, node);
        ReportedFromItem(limits, x, path, node, NewFiles(t, u), noted);
      }
    }
  }
}
