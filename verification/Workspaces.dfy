/** `workspaces.py`: filtered copies of a source tree, staleness, and the diff of a workspace.
    A filter is any predicate on relative paths; the patterns of a project are one such predicate. */
module Workspaces {
  import opened Text
  import opened Trees

  datatype Node = File(data: string) | Dir(entries: Tree) | Link | Special

  type Tree = Forest<Node>

  type Contents = map<string, string>

  /** The filter that hides nothing. */
  function Everything(): Filter { path => false }

  datatype Seen = Seen(path: string, data: string)

  /** `_safe_files`: the regular files a filtered walk yields. */
  function Walk(f: Tree, prefix: string, x: Filter): seq<Seen> {
    match f
    case Nil => []
    case Cons(name, node, rest) =>
      var path := Child(prefix, name);
      (if x(path) then []
       else match node
         case File(data) => [Seen(path, data)]
         case Dir(entries) => Walk(entries, path, x)
         case Link => []
         case Special => [])
      + Walk(rest, prefix, x)
  }

  /** The tree that `_copy_tree` writes. */
  function Copied(f: Tree, prefix: string, x: Filter): Tree {
    match f
    case Nil => Nil
    case Cons(name, node, rest) =>
      var path := Child(prefix, name);
      var others := Copied(rest, prefix, x);
      if x(path) then others
      else match node
        case File(data) => Cons(name, File(data), others)
        case Dir(entries) => Cons(name, Dir(Copied(entries, path, x)), others)
        case Link => others
        case Special => others
  }

  datatype Reason = Excluded | LinkOrReparsePoint | NotRegularFile

  function Omissions(f: Tree, prefix: string, x: Filter): seq<Omission<Reason>> {
    match f
    case Nil => []
    case Cons(name, node, rest) =>
      var path := Child(prefix, name);
      (if x(path) then [Omission(path, Excluded)]
       else match node
         case File(_) => []
         case Dir(entries) => Omissions(entries, path, x)
         case Link => [Omission(path, LinkOrReparsePoint)]
         case Special => [Omission(path, NotRegularFile)])
      + Omissions(rest, prefix, x)
  }

  /** The copy comes upon this entry: no directory above it is excluded. */
  predicate Meets(f: Tree, prefix: string, x: Filter, path: string, node: Node)
    decreases f
  {
    f.Cons? &&
    var here := Child(prefix, f.name);
    || (path == here && node == f.node)
    || (!x(here) && f.node.Dir? && Meets(f.node.entries, here, x, path, node))
    || Meets(f.rest, prefix, x, path, node)
  }

  /** Why an entry is left out. */
  predicate LeftOut(x: Filter, path: string, node: Node, reason: Reason) {
    match reason
    case Excluded => x(path)
    case LinkOrReparsePoint => !x(path) && node.Link?
    case NotRegularFile => !x(path) && node.Special?
  }

  /** Exactly the excluded entries, the links and the special files that the copy comes upon are reported. */
  lemma {:induction false} OmissionsExactly(f: Tree, prefix: string, x: Filter, o: Omission<Reason>)
    ensures o in Omissions(f, prefix, x) <==> exists node :: Meets(f, prefix, x, o.path, node) && LeftOut(x, o.path, node, o.reason)
    decreases f
  {
    hide Omissions, Meets;
    if o in Omissions(f, prefix, x) { var node := OmissionMet(f, prefix, x, o); }
    if node :| Meets(f, prefix, x, o.path, node) && LeftOut(x, o.path, node, o.reason) { MetOmission(f, prefix, x, o, node); }
  }

  lemma {:induction false} OmissionMet(f: Tree, prefix: string, x: Filter, o: Omission<Reason>) returns (node: Node)
    requires o in Omissions(f, prefix, x)
    ensures Meets(f, prefix, x, o.path, node) && LeftOut(x, o.path, node, o.reason)
    decreases f
  {
    if o in Omissions(f.rest, prefix, x) {
      node := OmissionMet(f.rest, prefix, x, o);
    } else if !x(Child(prefix, f.name)) && f.node.Dir? {
      node := OmissionMet(f.node.entries, Child(prefix, f.name), x, o);
    } else {
      node := f.node;
    }
  }

  lemma {:induction false} MetOmission(f: Tree, prefix: string, x: Filter, o: Omission<Reason>, node: Node)
    requires Meets(f, prefix, x, o.path, node) && LeftOut(x, o.path, node, o.reason)
    ensures o in Omissions(f, prefix, x)
    decreases f
  {
    var here := Child(prefix, f.name);
    if Meets(f.rest, prefix, x, o.path, node) {
      MetOmission(f.rest, prefix, x, o, node);
    } else if !x(here) && f.node.Dir? && Meets(f.node.entries, here, x, o.path, node) {
      MetOmission(f.node.entries, here, x, o, node);
    }
  }

  /** The copy holds exactly the regular files and directories that it comes upon and that are not excluded,
      each where it was. */
  lemma {:induction false} CopiedExactly(f: Tree, prefix: string, x: Filter, path: string, node: Node)
    ensures Meets(Copied(f, prefix, x), prefix, Everything(), path, node) <==>
      !x(path) && ((node.File? && Meets(f, prefix, x, path, node))
                   || (node.Dir? && exists entries :: Meets(f, prefix, x, path, Dir(entries)) && node == Dir(Copied(entries, path, x))))
    decreases f
  {
    if f.Cons? {
      var here := Child(prefix, f.name);
      CopiedExactly(f.rest, prefix, x, path, node);
      if f.node.Dir? {
        CopiedExactly(f.node.entries, here, x, path, node);
        assert Meets(f, prefix, x, here, Dir(f.node.entries));
      }
      if node.Dir? {
        if entries :| Meets(f.rest, prefix, x, path, Dir(entries)) && node == Dir(Copied(entries, path, x)) {
          assert Meets(f, prefix, x, path, Dir(entries));
        }
        if !x(here) && f.node.Dir? {
          if entries :| Meets(f.node.entries, here, x, path, Dir(entries)) && node == Dir(Copied(entries, path, x)) {
            assert Meets(f, prefix, x, path, Dir(entries));
          }
        }
      }
    }
  }

  /** `_copy_tree` and `_copy_entry`: the copy, and the list of omissions growing on the way. */
  method CopyTree(f: Tree, prefix: string, x: Filter, omitted: seq<Omission<Reason>>)
    returns (copy: Tree, all: seq<Omission<Reason>>)
    ensures copy == Copied(f, prefix, x) && all == omitted + Omissions(f, prefix, x)
    decreases f
  {
    match f {
      case Nil =>
        copy, all := Nil, omitted;
      case Cons(name, node, rest) =>
        var path := Child(prefix, name);
        var kept: Tree;
        if x(path) {
          copy, all := CopyTree(rest, prefix, x, omitted + [Omission(path, Excluded)]);
        } else {
          match node {
            case File(data) =>
              kept, all := CopyTree(rest, prefix, x, omitted);
              copy := Cons(name, File(data), kept);
            case Dir(entries) =>
              var inner: Tree;
              inner, all := CopyTree(entries, path, x, omitted);
              kept, all := CopyTree(rest, prefix, x, all);
              copy := Cons(name, Dir(inner), kept);
            case Link =>
              copy, all := CopyTree(rest, prefix, x, omitted + [Omission(path, LinkOrReparsePoint)]);
            case Special =>
              copy, all := CopyTree(rest, prefix, x, omitted + [Omission(path, NotRegularFile)]);
          }
        }
    }
  }

  // ---------------------------------------------------------------- copying and walking

  /** `y` hides nothing that `x` shows. */
  ghost predicate Weaker(y: Filter, x: Filter) { forall path :: y(path) ==> x(path) }

  /** Walking the filtered copy under any weaker filter gives the filtered walk of the source. */
  lemma {:induction false} CopyCommutesWithWalk(f: Tree, prefix: string, x: Filter, y: Filter)
    requires Weaker(y, x)
    ensures Walk(Copied(f, prefix, x), prefix, y) == Walk(f, prefix, x)
    decreases f
  {
    match f
    case Nil =>
    case Cons(name, node, rest) =>
      CopyCommutesWithWalk(rest, prefix, x, y);
      if node.Dir? { CopyCommutesWithWalk(node.entries, Child(prefix, name), x, y); }
  }

  /** Copying a filtered copy once more changes nothing. */
  lemma {:induction false} CopyTwice(f: Tree, prefix: string, x: Filter, y: Filter)
    requires Weaker(y, x)
    ensures Copied(Copied(f, prefix, x), prefix, y) == Copied(f, prefix, x)
    ensures Omissions(Copied(f, prefix, x), prefix, y) == []
    decreases f
  {
    match f
    case Nil =>
    case Cons(name, node, rest) =>
      CopyTwice(rest, prefix, x, y);
      if node.Dir? { CopyTwice(node.entries, Child(prefix, name), x, y); }
  }

  predicate IsName(name: string) { name != "" && '/' !in name }

  predicate WellNamed(f: Tree) {
    match f
    case Nil => true
    case Cons(name, node, rest) => IsName(name) && (node.Dir? ==> WellNamed(node.entries)) && WellNamed(rest)
  }

  /** The directory of a path; a path without a slash lies in the root. */
  function Parent(path: string): (r: string)
    ensures path != "" ==> |r| < |path|
  {
    if path == "" then ""
    else if path[|path| - 1] == '/' then path[..|path| - 1]
    else Parent(path[..|path| - 1])
  }

  lemma {:induction false} ParentOfChild(prefix: string, name: string)
    requires '/' !in name
    ensures Parent(prefix + "/" + name) == prefix
    ensures Parent(name) == ""
    decreases |name|
  {
    if name == "" {
      assert (prefix + "/" + name)[..|prefix|] == prefix;
    } else {
      var n := |name| - 1;
      ParentOfChild(prefix, name[..n]);
      assert (prefix + "/" + name)[..|prefix| + 1 + n] == prefix + "/" + name[..n];
    }
  }

  /** What a walk never reaches: excluded paths, and everything below them. */
  predicate Hidden(x: Filter, path: string)
    decreases |path|
  {
    path != "" && (x(path) || Hidden(x, Parent(path)))
  }

  lemma HiddenChild(x: Filter, prefix: string, name: string)
    requires IsName(name)
    ensures Hidden(x, Child(prefix, name)) <==> Hidden(x, prefix) || x(Child(prefix, name))
  {
    ParentOfChild(prefix, name);
  }

  function Shown(seen: seq<Seen>, x: Filter): seq<Seen> {
    if seen == [] then []
    else (if Hidden(x, seen[0].path) then [] else [seen[0]]) + Shown(seen[1..], x)
  }

  lemma {:induction false} ShownConcat(a: seq<Seen>, b: seq<Seen>, x: Filter)
    ensures Shown(a + b, x) == Shown(a, x) + Shown(b, x)
  {
    hide Hidden, Shown;
    if a == [] {
      NothingShown(x);
      assert a + b == b;
    } else {
      ShownConcat(a[1..], b, x);
      assert (a + b)[1..] == a[1..] + b && (a + b)[0] == a[0];
      var head := if Hidden(x, a[0].path) then [] else [a[0]];
      ConcatAssociates(head, Shown(a[1..], x), Shown(b, x));
      ShownHead(a + b, x);
      ShownHead(a, x);
    }
  }

  lemma NothingShown(x: Filter)
    ensures Shown([], x) == []
  {
  }

  lemma ShownHead(a: seq<Seen>, x: Filter)
    requires a != []
    ensures Shown(a, x) == (if Hidden(x, a[0].path) then [] else [a[0]]) + Shown(a[1..], x)
  {
    hide Hidden;
  }

  lemma ConcatAssociates<T>(a: seq<T>, b: seq<T>, c: seq<T>)
    ensures a + b + c == a + (b + c)
  {
  }

  /** The filtered walk is the full walk without the hidden paths, in the same order. */
  lemma {:induction false} WalkIsFiltered(f: Tree, prefix: string, x: Filter)
    requires WellNamed(f)
    ensures Shown(Walk(f, prefix, Everything()), x) == if Hidden(x, prefix) then [] else Walk(f, prefix, x)
    decreases f
  {
    hide Hidden;
    match f
    case Nil =>
    case Cons(name, node, rest) =>
      var path := Child(prefix, name);
      var mine := match node
        case File(data) => [Seen(path, data)]
        case Dir(entries) => Walk(entries, path, Everything())
        case Link => []
        case Special => [];
      assert Walk(f, prefix, Everything()) == mine + Walk(rest, prefix, Everything());
      ShownConcat(mine, Walk(rest, prefix, Everything()), x);
      WalkIsFiltered(rest, prefix, x);
      if node.Dir? { WalkIsFiltered(node.entries, path, x); }
      HiddenChild(x, prefix, name);
      if node.File? { assert mine[1..] == []; }
  }

  function ToContents(seen: seq<Seen>): Contents {
    if seen == [] then map[] else ToContents(seen[..|seen| - 1])[seen[|seen| - 1].path := seen[|seen| - 1].data]
  }

  function Snapshot(f: Tree, x: Filter): Contents { ToContents(Walk(f, "", x)) }

  /** `hashlib.sha256` of every file. */
  function Digests(sha: Hash, c: Contents): Contents { map path | path in c :: sha(c[path]) }

  // ---------------------------------------------------------------- staleness

  function Lookup(c: Contents, path: string): Option<string> {
    if path in c then Some(c[path]) else None
  }

  /** The sorted paths whose recorded and current digests differ. */
  function ChangedPaths(recorded: Contents, current: Contents): seq<string> {
    SortedKeys(set path | path in recorded.Keys + current.Keys && Lookup(recorded, path) != Lookup(current, path))
  }

  predicate RevisionChanged(recorded: Option<string>, current: Option<string>) {
    recorded.GetOr("") != "" && current.GetOr("") != "" && recorded != current
  }

  /** `stale_source` for a source that still is a directory. */
  predicate Stale(recorded: Contents, current: Contents, recordedRevision: Option<string>, revision: Option<string>) {
    ChangedPaths(recorded, current) != [] || RevisionChanged(recordedRevision, revision)
  }

  lemma NoChangedPaths(recorded: Contents, current: Contents)
    ensures ChangedPaths(recorded, current) == [] <==> recorded == current
  {
    var changed := set path | path in recorded.Keys + current.Keys && Lookup(recorded, path) != Lookup(current, path);
    assert ChangedPaths(recorded, current) == [] <==> changed == {};
    if changed == {} {
      forall path ensures Lookup(recorded, path) == Lookup(current, path) {
        assert path in changed <==> path in recorded.Keys + current.Keys && Lookup(recorded, path) != Lookup(current, path);
      }
      LookupsDecide(recorded, current);
    }
  }

  /** A source is stale exactly if some file differs by its digest, or both revisions are known and differ. */
  lemma StaleExactly(recorded: Contents, current: Contents, recordedRevision: Option<string>, revision: Option<string>)
    ensures Stale(recorded, current, recordedRevision, revision) <==>
      recorded != current
      || (exists a, b :: recordedRevision == Some(a) && revision == Some(b) && a != "" && b != "" && a != b)
  {
    hide ChangedPaths;
    NoChangedPaths(recorded, current);
    if RevisionChanged(recordedRevision, revision) {
      assert recordedRevision == Some(recordedRevision.value) && revision == Some(revision.value);
    }
  }

  /** The listed paths are those at which the digests differ, in order. */
  lemma ChangedPathsExactly(recorded: Contents, current: Contents, path: string)
    ensures path in ChangedPaths(recorded, current) <==> Lookup(recorded, path) != Lookup(current, path)
    ensures Ascending(ChangedPaths(recorded, current))
  {
    hide Ascending;
    SortedKeysAscend(set p | p in recorded.Keys + current.Keys && Lookup(recorded, p) != Lookup(current, p));
  }

  // ---------------------------------------------------------------- the diff

  datatype Kind = Added | Modified | Deleted

  datatype Change = Change(path: string, kind: Kind, before: Option<string>, after: Option<string>)

  function DigestOf(sha: Hash, c: Contents, path: string): Option<string> {
    if path in c then Some(sha(c[path])) else None
  }

  function KindOf(base: Contents, work: Contents, path: string): Kind {
    if path !in base then Added else if path !in work then Deleted else Modified
  }

  /** The changes of the first `n` paths of a list. */
  function DiffUpTo(sha: Hash, base: Contents, work: Contents, paths: seq<string>, n: nat): seq<Change>
    requires n <= |paths|
  {
    if n == 0 then [] else
      var path := paths[n - 1];
      var earlier := DiffUpTo(sha, base, work, paths, n - 1);
      if Lookup(base, path) == Lookup(work, path) then earlier
      else earlier + [Change(path, KindOf(base, work, path), DigestOf(sha, base, path), DigestOf(sha, work, path))]
  }

  function DiffOf(sha: Hash, base: Contents, work: Contents): seq<Change> {
    var paths := SortedKeys(base.Keys + work.Keys);
    DiffUpTo(sha, base, work, paths, |paths|)
  }

  /** The change list of `diff`: every differing path once, in order, rightly labelled, with both digests. */
  method Diff(sha: Hash, base: Contents, work: Contents) returns (changes: seq<Change>)
    ensures changes == DiffOf(sha, base, work) && ExactDiff(base, work, changes)
    ensures forall i :: 0 <= i < |changes| ==>
      changes[i].before == DigestOf(sha, base, changes[i].path) && changes[i].after == DigestOf(sha, work, changes[i].path)
  {
    hide ExactDiff;
    changes := [];
    DiffIsExact(sha, base, work);
    var paths := SortedKeys(base.Keys + work.Keys);
    for i := 0 to |paths|
      invariant changes == DiffUpTo(sha, base, work, paths, i)
      invariant forall k :: 0 <= k < |changes| ==>
        changes[k].before == DigestOf(sha, base, changes[k].path) && changes[k].after == DigestOf(sha, work, changes[k].path)
    {
      var path := paths[i];
      assert path in paths;
      if path in base && path in work && base[path] == work[path] {
        continue;
      }
      var kind := Modified;
      if path !in base {
        kind := Added;
      } else if path !in work {
        kind := Deleted;
      }
      changes := changes + [Change(path, kind, DigestOf(sha, base, path), DigestOf(sha, work, path))];
    }
  }

  ghost predicate Mentions(changes: seq<Change>, path: string) {
    exists i :: 0 <= i < |changes| && changes[i].path == path
  }

  predicate InOrder(changes: seq<Change>) { forall i, j :: 0 <= i < j < |changes| ==> Less(changes[i].path, changes[j].path) }

  predicate RightKinds(base: Contents, work: Contents, changes: seq<Change>) {
    forall i :: 0 <= i < |changes| ==>
      (changes[i].kind == Added <==> changes[i].path !in base && changes[i].path in work)
      && (changes[i].kind == Deleted <==> changes[i].path in base && changes[i].path !in work)
      && (changes[i].kind == Modified <==> changes[i].path in base && changes[i].path in work)
  }

  /** The list names every path that differs, once, in order, with the right kind. */
  ghost predicate ExactDiff(base: Contents, work: Contents, changes: seq<Change>) {
    && (forall path :: Mentions(changes, path) <==> Lookup(base, path) != Lookup(work, path))
    && RightKinds(base, work, changes) && InOrder(changes)
  }

  ghost predicate ExactSoFar(base: Contents, work: Contents, listed: seq<string>, changes: seq<Change>) {
    && (forall path :: Mentions(changes, path) <==> path in listed && Lookup(base, path) != Lookup(work, path))
    && RightKinds(base, work, changes) && InOrder(changes)
  }

  lemma MentionsSnoc(changes: seq<Change>, c: Change, path: string)
    ensures Mentions(changes + [c], path) <==> Mentions(changes, path) || path == c.path
  {
    if Mentions(changes, path) {
      var i :| 0 <= i < |changes| && changes[i].path == path;
      assert (changes + [c])[i].path == path;
    }
    assert (changes + [c])[|changes|] == c;
  }

  lemma OrderSnoc(changes: seq<Change>, c: Change)
    requires InOrder(changes) && forall path :: Mentions(changes, path) ==> Less(path, c.path)
    ensures InOrder(changes + [c])
  {
    hide Less;
    forall i | 0 <= i < |changes| ensures Less(changes[i].path, c.path) { assert Mentions(changes, changes[i].path); }
  }

  lemma KindsSnoc(sha: Hash, base: Contents, work: Contents, changes: seq<Change>, path: string)
    requires RightKinds(base, work, changes) && (path in base || path in work)
    ensures RightKinds(base, work,
              changes + [Change(path, KindOf(base, work, path), DigestOf(sha, base, path), DigestOf(sha, work, path))])
  {
  }

  lemma {:induction false} DiffUpToExact(sha: Hash, base: Contents, work: Contents, paths: seq<string>, n: nat)
    requires n <= |paths| && Ascending(paths) && forall path :: path in paths ==> path in base || path in work
    ensures ExactSoFar(base, work, paths[..n], DiffUpTo(sha, base, work, paths, n))
  {
    hide Less, Mentions, InOrder, RightKinds;
    if n == 0 {
      NothingMentioned(base, work);
    } else {
      DiffUpToExact(sha, base, work, paths, n - 1);
      var earlier, path := DiffUpTo(sha, base, work, paths, n - 1), paths[n - 1];
      assert forall other :: other in paths[..n] <==> other in paths[..n - 1] || other == path;
      if Lookup(base, path) != Lookup(work, path) {
        var c := Change(path, KindOf(base, work, path), DigestOf(sha, base, path), DigestOf(sha, work, path));
        forall other ensures Mentions(earlier + [c], other) <==> Mentions(earlier, other) || other == path {
          MentionsSnoc(earlier, c, other);
        }
        assert path in paths;
        OrderSnoc(earlier, c);
        KindsSnoc(sha, base, work, earlier, path);
      }
    }
  }

  lemma NothingMentioned(base: Contents, work: Contents)
    ensures InOrder([]) && RightKinds(base, work, []) && forall path :: !Mentions([], path)
  {
  }

  /** `files_changed` is exactly the set of differing paths, each once, in path order, rightly labelled. */
  lemma DiffIsExact(sha: Hash, base: Contents, work: Contents)
    ensures ExactDiff(base, work, DiffOf(sha, base, work))
  {
    hide Less, Mentions, InOrder, RightKinds;
    var paths := SortedKeys(base.Keys + work.Keys);
    SortedKeysAscend(base.Keys + work.Keys);
    DiffUpToExact(sha, base, work, paths, |paths|);
    assert paths[..|paths|] == paths;
  }

  /** Applying a change list to the baseline, with the contents of the workspace. */
  function Rebuilt(base: Contents, work: Contents, changes: seq<Change>): Contents {
    if changes == [] then base else
      var n := |changes| - 1;
      var earlier := Rebuilt(base, work, changes[..n]);
      if changes[n].path in work then earlier[changes[n].path := work[changes[n].path]] else earlier - {changes[n].path}
  }

  lemma {:induction false} RebuiltAt(base: Contents, work: Contents, changes: seq<Change>, path: string)
    ensures Lookup(Rebuilt(base, work, changes), path) ==
      if Mentions(changes, path) then Lookup(work, path) else Lookup(base, path)
  {
    if changes != [] {
      var n := |changes| - 1;
      RebuiltAt(base, work, changes[..n], path);
      MentionsSnoc(changes[..n], changes[n], path);
      assert changes == changes[..n] + [changes[n]];
    }
  }

  /** Applying the diff to the baseline rebuilds the visible files of the workspace. */
  lemma DiffRebuilds(base: Contents, work: Contents, changes: seq<Change>)
    requires ExactDiff(base, work, changes)
    ensures Rebuilt(base, work, changes) == work
  {
    hide Rebuilt, Mentions, InOrder, RightKinds;
    var result := Rebuilt(base, work, changes);
    forall path ensures Lookup(result, path) == Lookup(work, path) { RebuiltAt(base, work, changes, path); }
    LookupsDecide(result, work);
  }

  lemma LookupsDecide(a: Contents, b: Contents)
    requires forall path :: Lookup(a, path) == Lookup(b, path)
    ensures a == b
  {
    assert forall path :: path in a ==> Lookup(a, path) == Lookup(b, path);
    assert forall path :: path in b ==> Lookup(a, path) == Lookup(b, path);
  }

  // ---------------------------------------------------------------- a new workspace

  lemma NothingDiffers(c: Contents, changes: seq<Change>)
    requires ExactDiff(c, c, changes)
    ensures changes == []
  {
    assert changes != [] ==> Mentions(changes, changes[0].path);
  }

  /** A workspace just created is not stale and its diff is empty: the baseline, the workspace and the
      filtered source have one snapshot. */
  lemma NewWorkspaceUnchanged(sha: Hash, source: Tree, excluded: Filter, always: Filter, revision: Option<string>)
    requires Weaker(always, excluded)
    ensures var baseline := Copied(source, "", excluded); var workspace := Copied(baseline, "", always);
      && Snapshot(baseline, always) == Snapshot(workspace, always) == Snapshot(source, excluded)
      && DiffOf(sha, Snapshot(baseline, always), Snapshot(workspace, always)) == []
      && !Stale(Digests(sha, Snapshot(baseline, always)), Digests(sha, Snapshot(source, excluded)), revision, revision)
  {
    hide Walk, Copied, ToContents, Digests, ChangedPaths;
    var baseline := Copied(source, "", excluded);
    CopyCommutesWithWalk(source, "", excluded, always);
    CopyTwice(source, "", excluded, always);
    NoChangedPaths(Digests(sha, Snapshot(baseline, always)), Digests(sha, Snapshot(source, excluded)));
    var c := Snapshot(baseline, always);
    DiffIsExact(sha, c, c);
    NothingDiffers(c, DiffOf(sha, c, c));
  }

  // ---------------------------------------------------------------- publishing

  /** Copying the changed files of a workspace onto the source. */
  function Published(source: Contents, work: Contents, changes: seq<Change>): Contents {
    if changes == [] then source else
      var n := |changes| - 1;
      var earlier := Published(source, work, changes[..n]);
      if changes[n].path in work then earlier[changes[n].path := work[changes[n].path]] else earlier
  }

  predicate NoDeletion(changes: seq<Change>) { forall i :: 0 <= i < |changes| ==> changes[i].kind != Deleted }

  lemma {:induction false} PublishedAt(source: Contents, work: Contents, changes: seq<Change>, path: string)
    requires forall i :: 0 <= i < |changes| ==> changes[i].path in work
    ensures Lookup(Published(source, work, changes), path) ==
      if Mentions(changes, path) then Lookup(work, path) else Lookup(source, path)
  {
    if changes != [] {
      var n := |changes| - 1;
      PublishedAt(source, work, changes[..n], path);
      MentionsSnoc(changes[..n], changes[n], path);
      assert changes == changes[..n] + [changes[n]];
    }
  }

  /** The files of the source that the filtered snapshot shows. */
  function Visible(source: Contents, x: Filter): Contents { map path | path in source && !Hidden(x, path) :: source[path] }

  lemma ShownSnoc(seen: seq<Seen>, last: Seen, x: Filter)
    ensures Shown(seen + [last], x) == Shown(seen, x) + if Hidden(x, last.path) then [] else [last]
  {
    hide Hidden;
    ShownConcat(seen, [last], x);
    assert [last][1..] == [];
    assert Shown([last], x) == (if Hidden(x, last.path) then [] else [last]) + Shown([], x);
  }

  lemma ContentsSnoc(seen: seq<Seen>, last: Seen)
    ensures ToContents(seen + [last]) == ToContents(seen)[last.path := last.data]
  {
    assert (seen + [last])[..|seen|] == seen;
  }

  lemma VisiblePut(c: Contents, path: string, data: string, x: Filter)
    ensures Visible(c[path := data], x) == if Hidden(x, path) then Visible(c, x) else Visible(c, x)[path := data]
  {
    hide Hidden;
  }

  lemma {:induction false} ShownContents(seen: seq<Seen>, x: Filter)
    ensures ToContents(Shown(seen, x)) == Visible(ToContents(seen), x)
  {
    if seen != [] {
      var n := |seen| - 1;
      ShownContents(seen[..n], x);
      assert seen == seen[..n] + [seen[n]];
      ShownSnoc(seen[..n], seen[n], x);
      ContentsSnoc(seen[..n], seen[n]);
      ContentsSnoc(Shown(seen[..n], x), seen[n]);
      VisiblePut(ToContents(seen[..n]), seen[n].path, seen[n].data, x);
      hide ToContents, Shown, Visible, Hidden;
      assert Shown(seen[..n], x) + [] == Shown(seen[..n], x);
    }
  }

  /** The filtered snapshot of a source tree is the visible part of all its files. */
  lemma SnapshotIsVisible(f: Tree, x: Filter)
    requires WellNamed(f)
    ensures Snapshot(f, x) == Visible(Snapshot(f, Everything()), x)
  {
    hide Walk, Shown, ToContents, Visible, WellNamed;
    WalkIsFiltered(f, "", x);
    ShownContents(Walk(f, "", Everything()), x);
  }

  /** Both have the file or neither has, and the contents are equal or their digests collide. */
  ghost predicate AgreeAt(sha: Hash, a: Contents, b: Contents, path: string) {
    (path in a <==> path in b) && (path in a ==> a[path] == b[path] || (a[path] != b[path] && sha(a[path]) == sha(b[path])))
  }

  /** Publishing a diff without deletions onto a source that is not stale makes the source agree with the
      workspace on every path that the patterns do not hide, up to digest collisions, and leaves every
      other path that the diff does not name as it was. */
  lemma PublishedAgrees(sha: Hash, source: Contents, base: Contents, work: Contents, x: Filter, changes: seq<Change>,
                         recorded: Option<string>, revision: Option<string>, path: string)
    requires ExactDiff(base, work, changes) && NoDeletion(changes)
    requires !Stale(Digests(sha, base), Digests(sha, Visible(source, x)), recorded, revision)
    ensures !Hidden(x, path) ==> AgreeAt(sha, Published(source, work, changes), work, path)
    ensures Lookup(base, path) == Lookup(work, path) ==> Lookup(Published(source, work, changes), path) == Lookup(source, path)
  {
    hide Published, Less, Hidden, ChangedPaths;
    NoChangedPaths(Digests(sha, base), Digests(sha, Visible(source, x)));
    forall i | 0 <= i < |changes| ensures changes[i].path in work { assert Mentions(changes, changes[i].path); }
    hide Mentions, InOrder;
    PublishedAt(source, work, changes, path);
    if !Hidden(x, path) && Lookup(base, path) == Lookup(work, path) {
      var shown := Visible(source, x);
      assert path in Digests(sha, shown) <==> path in Digests(sha, base);
      assert path in source ==> Digests(sha, shown)[path] == sha(source[path]);
      assert path in base ==> Digests(sha, base)[path] == sha(base[path]);
    }
  }
}
