/** What a checksum manifest says, in any of its forms: `_entries_from_payload` reads exactly that, and refuses it exactly
    if it says nothing that can be used. */
module ManifestReading {
  import opened Text
  import opened Json
  import opened EventChain
  import opened Evidence
  import opened StandaloneVerifier

  // ---------------------------------------------------------------- the algorithm

  /** A character that folds to a small letter or a digit. */
  predicate FoldsTo(c: char, small: char) {
    c == small || ('A' <= c <= 'Z' && c as int + 32 == small as int) || (c == '\U{017F}' && small == 's')
  }

  /** Dashes aside, and whatever the case of the letters, the text is the name. */
  predicate Spells(t: string, name: string) {
    if t == "" then name == ""
    else if t[0] == '-' then Spells(t[1..], name)
    else name != "" && FoldsTo(t[0], name[0]) && Spells(t[1..], name[1..])
  }

  predicate SmallName(name: string) { forall i :: 0 <= i < |name| ==> 'a' <= name[i] <= 'z' || IsDigit(name[i]) }

  lemma {:induction false} SpelledExactly(t: string, name: string)
    requires SmallName(name)
    ensures DropDashes(Folded(t)) == name <==> Spells(t, name)
  {
    if t == "" {
      assert Folded(t) == "";
    } else {
      assert Folded(t)[1..] == Folded(t[1..]) && Folded(t)[0] == FoldChar(t[0]);
      if t[0] == '-' {
        SpelledExactly(t[1..], name);
      } else if name != "" {
        SpelledExactly(t[1..], name[1..]);
        assert name == [name[0]] + name[1..];
      }
    }
  }

  // ---------------------------------------------------------------- digests

  /** The first of two keys that the object has, and null if it has neither. */
  function EitherOf(fields: map<string, Json>, first: string, second: string): Json {
    if first in fields then fields[first] else if second in fields then fields[second] else Null
  }

  /** A hexadecimal digit in either case, and the small one. */
  predicate SameHex(c: char, small: char) {
    (IsDigit(small) && c == small) || ('a' <= small <= 'f' && (c == small || c as int + 32 == small as int))
  }

  predicate SameDigest(text: string, digest: string) {
    |text| == 64 && |digest| == 64 && forall i :: 0 <= i < 64 ==> SameHex(text[i], digest[i])
  }

  /** A value gives a digest by its text, or as an object by one of two keys. */
  predicate Gives(v: Json, digest: string) {
    var recorded := if v.Obj? then EitherOf(v.fields, "sha256", "digest") else v;
    recorded.Str? && SameDigest(recorded.text, digest)
  }

  lemma DigestExactly(v: Json, digest: string)
    ensures DigestFrom(v) == Some(digest) <==> Gives(v, digest)
  {
    var recorded := if v.Obj? then EitherOf(v.fields, "sha256", "digest") else v;
    if recorded.Str? { LowerExactly(recorded.text, digest); }
  }

  lemma LowerExactly(text: string, digest: string)
    ensures IsHexDigest(Lower(text)) && Lower(text) == digest <==> SameDigest(text, digest)
  {
    if SameDigest(text, digest) {
      assert Lower(text) == digest;
    }
  }

  // ---------------------------------------------------------------- entries

  /** An entry with a usable path and a digest. */
  ghost predicate Usable(e: Entry) {
    e.path.Str? && NormalizePath(e.path.text).Some? && exists digest :: Gives(e.digest, digest)
  }

  ghost function PathOf(e: Entry): string
    requires Usable(e)
  {
    NormalizePath(e.path.text).value
  }

  ghost predicate AllUsable(entries: seq<Entry>) { forall i :: 0 <= i < |entries| ==> Usable(entries[i]) }

  ghost predicate PathsDiffer(entries: seq<Entry>)
    requires AllUsable(entries)
  {
    forall i, j :: 0 <= i < j < |entries| ==> PathOf(entries[i]) != PathOf(entries[j])
  }

  /** The map holds the path and the digest of each entry, and nothing else. */
  ghost predicate HoldsEntries(entries: seq<Entry>, m: map<string, string>)
    requires AllUsable(entries)
  {
    && (forall i :: 0 <= i < |entries| ==> PathOf(entries[i]) in m && Gives(entries[i].digest, m[PathOf(entries[i])]))
    && forall path :: path in m ==> exists i :: 0 <= i < |entries| && PathOf(entries[i]) == path
  }

  lemma UsableDigest(e: Entry)
    ensures Usable(e) <==> e.path.Str? && NormalizePath(e.path.text).Some? && DigestFrom(e.digest).Some?
  {
    hide NormalizePath, Gives, DigestFrom;
    forall digest ensures DigestFrom(e.digest) == Some(digest) <==> Gives(e.digest, digest) { DigestExactly(e.digest, digest); }
    if DigestFrom(e.digest).Some? { assert Gives(e.digest, DigestFrom(e.digest).value); }
  }

  /** The entries are collected exactly if each is usable and no two name one path; then the result holds just them. */
  lemma {:induction false} CollectExactly(entries: seq<Entry>)
    ensures Collect(entries).Some? <==> AllUsable(entries) && PathsDiffer(entries)
    ensures Collect(entries).Some? ==> HoldsEntries(entries, Collect(entries).value)
  {
    hide NormalizePath, DigestFrom, Gives, Usable;
    if entries != [] {
      var n := |entries| - 1;
      var earlier := entries[..n];
      CollectExactly(earlier);
      EarlierEntries(entries, n);
      if Collect(earlier).Some? { LastCollected(entries, n); }
    }
  }

  lemma EarlierEntries(entries: seq<Entry>, n: nat)
    requires n <= |entries|
    ensures AllUsable(entries) ==> AllUsable(entries[..n]) && (PathsDiffer(entries) ==> PathsDiffer(entries[..n]))
  {
    hide Usable, PathOf;
    assert forall i :: 0 <= i < n ==> entries[..n][i] == entries[i];
  }

  lemma CollectStep(entries: seq<Entry>, n: nat)
    requires |entries| == n + 1 && Collect(entries[..n]).Some?
    ensures var found := Collect(entries[..n]).value; var last := entries[n];
      if Usable(last) && PathOf(last) !in found
      then Gives(last.digest, DigestFrom(last.digest).GetOr(""))
           && Collect(entries) == Some(found[PathOf(last) := DigestFrom(last.digest).GetOr("")])
      else Collect(entries).None?
  {
    hide NormalizePath, DigestFrom, Gives;
    UsableDigest(entries[n]);
    if DigestFrom(entries[n].digest).Some? { DigestExactly(entries[n].digest, DigestFrom(entries[n].digest).value); }
  }

  /** An entry behind usable entries on different paths: it must be usable, on a path that no other names. */
  lemma LastCollected(entries: seq<Entry>, n: nat)
    requires |entries| == n + 1 && AllUsable(entries[..n]) && PathsDiffer(entries[..n])
    requires Collect(entries[..n]).Some? && HoldsEntries(entries[..n], Collect(entries[..n]).value)
    ensures Collect(entries).Some? <==> AllUsable(entries) && PathsDiffer(entries)
    ensures Collect(entries).Some? ==> HoldsEntries(entries, Collect(entries).value)
  {
    hide DigestFrom, Gives, Collect, Usable, PathOf;
    var earlier, last := entries[..n], entries[n];
    CollectStep(entries, n);
    assert forall i :: 0 <= i < n ==> earlier[i] == entries[i];
    if Usable(last) {
      assert AllUsable(entries);
      assert PathsDiffer(entries) <==> PathOf(last) !in Collect(earlier).value;
    }
  }

  // ---------------------------------------------------------------- forms

  /** An object lists its keys with their values, and a list its objects, each with a path and a digest. */
  predicate ListsIn(raw: Json, entries: seq<Entry>) {
    match raw
    case Obj(fields) => entries == EntriesOfMap(fields, SortedKeys(fields.Keys))
    case Arr(items) =>
      && |entries| == |items|
      && forall i :: 0 <= i < |items| ==>
        items[i].Obj?
        && entries[i] == Entry(EitherOf(items[i].fields, "path", "file"), EitherOf(items[i].fields, "sha256", "digest"))
    case _ => false
  }

  /** Where a manifest keeps its entries: under one key, under another, or in itself, beside what describes it. */
  function EntriesOf(fields: map<string, Json>): Json {
    if "files" in fields then fields["files"]
    else if "checksums" in fields then fields["checksums"]
    else Obj(map k | k in fields && k != "algorithm" && k != "schema_version" && k != "created_at" :: fields[k])
  }

  predicate NamesSha256(fields: map<string, Json>) {
    "algorithm" !in fields || (fields["algorithm"].Str? && Spells(fields["algorithm"].text, "sha256"))
  }

  /** A manifest says what the map holds. */
  ghost predicate ManifestSays(payload: Json, m: map<string, string>) {
    && payload.Obj? && NamesSha256(payload.fields) && m != map[] && CHECKSUM_FILE !in m
    && exists entries ::
      ListsIn(EntriesOf(payload.fields), entries) && AllUsable(entries) && PathsDiffer(entries) && HoldsEntries(entries, m)
  }

  lemma ListExactly(items: seq<Json>, entries: seq<Entry>)
    ensures EntriesOfList(items) == Some(entries) <==> ListsIn(Arr(items), entries)
  {
    if ListsIn(Arr(items), entries) {
      assert EntriesOfList(items).value == entries;
    }
  }

  lemma OneMap(entries: seq<Entry>, m: map<string, string>, n: map<string, string>)
    requires AllUsable(entries) && HoldsEntries(entries, m) && HoldsEntries(entries, n)
    ensures m == n
  {
    hide Usable, Gives, NormalizePath;
    forall path | path in m ensures path in n && m[path] == n[path] {
      var i :| 0 <= i < |entries| && PathOf(entries[i]) == path;
      DigestExactly(entries[i].digest, m[path]);
      DigestExactly(entries[i].digest, n[path]);
    }
    forall path | path in n ensures path in m {
      var i :| 0 <= i < |entries| && PathOf(entries[i]) == path;
    }
  }

  lemma AlgorithmExactly(fields: map<string, Json>)
    ensures NamesSha256(fields) <==>
      var algorithm := GetOr(fields, "algorithm", Str("sha256"));
      algorithm.Str? && DropDashes(Folded(algorithm.text)) == "sha256"
  {
    hide DropDashes, Folded, Spells;
    if "algorithm" in fields {
      if fields["algorithm"].Str? { SpelledExactly(fields["algorithm"].text, "sha256"); }
    } else {
      SpelledExactly("sha256", "sha256");
      assert Spells("sha256", "sha256") by { NameSpellsItself("sha256"); }
    }
  }

  lemma {:induction false} NameSpellsItself(name: string)
    requires SmallName(name)
    ensures Spells(name, name)
  {
    if name != "" { NameSpellsItself(name[1..]); }
  }

  /** A manifest is read as a map exactly if that is what it says. */
  lemma ManifestExactly(payload: Json, m: map<string, string>)
    ensures EntriesFrom(payload) == Some(m) <==> ManifestSays(payload, m)
  {
    hide Collect, Folded, DropDashes, NamesSha256, EntriesOfMap, EntriesOfList, AllUsable, PathsDiffer, HoldsEntries, ListsIn, EntriesOf;
    if payload.Obj? {
      AlgorithmExactly(payload.fields);
      var raw := EntriesOf(payload.fields);
      RawIs(payload.fields);
      var listed := ListedIn(raw);
      forall entries ensures listed == Some(entries) <==> ListsIn(raw, entries) { ListedExactly(raw, entries); }
      forall entries ensures Collect(entries) == Some(m) <==> AllUsable(entries) && PathsDiffer(entries) && HoldsEntries(entries, m) {
        CollectExactly(entries);
        if Collect(entries).Some? && HoldsEntries(entries, m) { OneMap(entries, m, Collect(entries).value); }
      }
      EntriesByList(payload);
    }
  }

  function ListedIn(raw: Json): Option<seq<Entry>> {
    if raw.Obj? then Some(EntriesOfMap(raw.fields, SortedKeys(raw.fields.Keys)))
    else if raw.Arr? then EntriesOfList(raw.items)
    else None
  }

  lemma ListedExactly(raw: Json, entries: seq<Entry>)
    ensures ListedIn(raw) == Some(entries) <==> ListsIn(raw, entries)
  {
    hide EntriesOfMap, EntriesOfList, ListsIn;
    match raw
    case Arr(items) => ListExactly(items, entries);
    case _ => assert ListsIn(raw, entries) <==> ListedIn(raw) == Some(entries) by { NoList(raw, entries); }
  }

  lemma NoList(raw: Json, entries: seq<Entry>)
    requires !raw.Arr?
    ensures ListsIn(raw, entries) <==> ListedIn(raw) == Some(entries)
  {
    hide EntriesOfMap;
  }

  lemma RawIs(fields: map<string, Json>)
    ensures EntriesOf(fields) ==
      if "files" in fields then fields["files"]
      else if "checksums" in fields then fields["checksums"]
      else Obj(fields - {"algorithm", "schema_version", "created_at"})
  {
    assert (map k | k in fields && k != "algorithm" && k != "schema_version" && k != "created_at" :: fields[k])
        == fields - {"algorithm", "schema_version", "created_at"};
  }

  lemma EntriesByList(payload: Json)
    requires payload.Obj?
    ensures var algorithm := GetOr(payload.fields, "algorithm", Str("sha256")); var listed := ListedIn(EntriesOf(payload.fields));
      EntriesFrom(payload) ==
        if !algorithm.Str? || DropDashes(Folded(algorithm.text)) != "sha256" || listed.None? || Collect(listed.value).None? then None
        else if Collect(listed.value).value == map[] || CHECKSUM_FILE in Collect(listed.value).value then None
        else Collect(listed.value)
  {
    hide Collect, Folded, DropDashes, EntriesOfMap, EntriesOfList, EntriesOf;
    RawIs(payload.fields);
  }
}
