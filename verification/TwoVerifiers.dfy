/** How the library's verifier and the standalone one relate. */
module TwoVerifiers {
  import opened Text
  import opened Json
  import opened JsonRoundTrip
  import opened JsonLines
  import opened EventChain
  import opened ChainProofs
  import opened Evidence
  import opened EvidenceVerify
  import opened EvidenceProofs
  import opened EvidenceLedger
  import opened StandaloneVerifier

  lemma {:induction false} CanonicalPayloadIsNormal(v: Json)
    requires PayloadIsCanonical(v)
    ensures IsNormalPayload(v)
  {
    match v
    case Arr(items) => forall i | 0 <= i < |items| ensures IsNormalPayload(items[i]) { CanonicalPayloadIsNormal(items[i]); }
    case Obj(fields) => forall k | k in fields ensures IsNormalPayload(fields[k]) { CanonicalPayloadIsNormal(fields[k]); }
    case _ =>
  }

  /** What the standalone verifier asks of an event beyond what the library asks. */
  predicate StrictEvent(event: Json) {
    IsEventObject(event) &&
    IsComponentValue(event.fields["event_type"]) && IsComponentValue(event.fields["actor"]) &&
    event.fields["event_hash"].Str? && IsHexDigest(event.fields["event_hash"].text) &&
    PayloadIsCanonical(event.fields["payload"])
  }

  lemma AcceptedEvent(sha: Hash, events: seq<Json>, i: nat)
    requires i < |events|
    requires i > 0 ==> IsEventObject(events[i - 1]) && events[i - 1].fields["event_hash"].Str?
    ensures EventAcceptedAt(sha, events, i) <==> ValidEvent(sha, events, i) && StrictEvent(events[i])
  {
    hide PayloadIsCanonical, IsNormalPayload, AllFinite, Print, EqualsIndex, IsComponent, IsHexDigest;
    if IsEventObject(events[i]) {
      var p := events[i].fields["payload"];
      if PayloadIsCanonical(p) { CanonicalPayloadIsNormal(p); }
      if IsNormalPayload(p) { NormalPayloadIsFinite(p); }
    }
  }

  lemma {:induction false} AcceptedPrefix(sha: Hash, events: seq<Json>, n: nat)
    requires n <= |events|
    ensures (forall i :: 0 <= i < n ==> EventAcceptedAt(sha, events, i)) <==>
            (forall i :: 0 <= i < n ==> ValidEvent(sha, events, i) && StrictEvent(events[i]))
  {
    hide EventAcceptedAt, ValidEvent;
    if n > 0 {
      AcceptedPrefix(sha, events, n - 1);
      if n == 1 || (forall i :: 0 <= i < n - 1 ==> ValidEvent(sha, events, i) && StrictEvent(events[i])) {
        assert n > 1 ==> StrictEvent(events[n - 2]);
        AcceptedEvent(sha, events, n - 1);
      }
    }
  }

  /** Every event list the standalone verifier accepts is a valid chain, and the valid chains it turns
      down are those with an irregular type, actor, digest or path-like multi-line payload text. */
  lemma StandaloneAcceptsStrictChains(sha: Hash, events: seq<Json>)
    ensures EventsAccepted(sha, events) <==>
            ValidChain(sha, events) && forall i :: 0 <= i < |events| ==> StrictEvent(events[i])
  {
    hide EventAcceptedAt, ValidEvent, StrictEvent;
    AcceptedPrefix(sha, events, |events|);
  }

  // ---------------------------------------------------------------- manifests

  predicate PlainChar(c: char) { c != '/' && c != '\\' && c != ':' && !IsSpace(c) }

  predicate PlainName(t: string) {
    (forall i :: 0 <= i < |t| ==> PlainChar(t[i])) && t != "" && t != "." && t != ".."
  }

  lemma {:induction false} PlainSplit(t: string)
    requires forall i :: 0 <= i < |t| ==> PlainChar(t[i])
    ensures SplitSlashes(t) == [t]
  {
    if t != "" {
      PlainSplit(t[1..]);
      assert t == [t[0]] + t[1..];
    }
  }

  lemma PlainNormalizes(t: string)
    requires PlainName(t)
    ensures NormalizePath(t) == Some(t)
  {
    PlainSplit(t);
    assert ReplaceBackslashes(t) == t;
    assert PlainChar(t[0]);
    assert DropTrivial([t]) == [t] by { assert [t][1..] == []; }
  }

  lemma HexIsLower(t: string)
    requires IsHexDigest(t)
    ensures DigestFrom(Str(t)) == Some(t)
  {
    assert Lower(t) == t;
  }

  predicate Distinct(keys: seq<string>) { forall i, j :: 0 <= i < j < |keys| ==> keys[i] != keys[j] }

  lemma {:induction false} CollectPlain(fields: map<string, Json>, keys: seq<string>)
    requires forall k :: k in keys ==> k in fields && PlainName(k) && fields[k].Str? && IsHexDigest(fields[k].text)
    requires Distinct(keys)
    ensures Collect(EntriesOfMap(fields, keys)) == Some(map k | k in keys :: fields[k].text)
  {
    hide NormalizePath, DigestFrom, IsHexDigest, PlainName;
    if keys != [] {
      var n := |keys| - 1;
      var last := keys[n];
      assert last in keys;
      CollectPlain(fields, keys[..n]);
      assert EntriesOfMap(fields, keys)[..n] == EntriesOfMap(fields, keys[..n]);
      PlainNormalizes(last);
      HexIsLower(fields[last].text);
      assert last !in keys[..n];
      assert (map k | k in keys :: fields[k].text) == (map k | k in keys[..n] :: fields[k].text)[last := fields[last].text] by {
        assert forall k :: k in keys <==> k == last || k in keys[..n];
      }
    }
  }

  lemma SortedKeysDistinct(keys: set<string>)
    ensures Distinct(SortedKeys(keys))
  {
    SortedKeysAscend(keys);
    forall s: string ensures !Less(s, s) { LessTrichotomy(s, s); }
  }

  predicate NameChar(c: char) { 'a' <= c <= 'z' || IsDigit(c) || c == '_' || c == '.' }

  /** Plain names made of the characters the ledger's own file names use. */
  predicate NameText(t: string) { |t| > 2 && forall i :: 0 <= i < |t| ==> NameChar(t[i]) }

  lemma NameTextPlain(t: string)
    requires NameText(t)
    ensures PlainName(t)
  {
    assert forall c: char :: NameChar(c) ==> PlainChar(c);
  }

  lemma JsonNames(name: string)
    requires name in JSON_FILES
    ensures NameText(name)
  {
    if name == "task.json" {
    } else if name == "intent.json" {
    } else if name == "context_pack.json" {
    } else if name == "source_snapshot.json" {
    } else if name == "operations.json" {
    } else if name == "files_changed.json" {
    } else if name == "validation.json" {
    } else if name == "environment.json" {
    } else {
      assert name == "final_report.json";
    }
  }

  lemma LedgerNamesPlain(name: string)
    requires name in COMPATIBILITY_FILES || name == CHAIN_FILE || name == ATTESTATION_FILE
    ensures PlainName(name)
  {
    hide PlainName;
    if name in JSON_FILES {
      JsonNames(name);
    }
    NameTextPlain(name);
  }

  // ---------------------------------------------------------------- what a history leaves

  const LEDGER_FILES: set<string> := COMPATIBILITY_FILES + {CHAIN_FILE, ATTESTATION_FILE, CHECKSUM_FILE}

  predicate RegularEvent(event: Json) {
    IsEventObject(event) && IsComponentValue(event.fields["event_type"]) && IsComponentValue(event.fields["actor"])
  }

  /** Only the ledger's own names, and only events that `create_event` made. */
  predicate Regular(h: History) {
    h.files.Keys <= LEDGER_FILES && forall i :: 0 <= i < |h.log| ==> RegularEvent(h.log[i])
  }

  lemma CreatedRegular(sha: Hash, h: Header, payload: Json, event: Json)
    requires CreateEvent(sha, h, payload) == Event(event)
    ensures RegularEvent(event)
  {
    CreatedHeader(sha, h, payload, event);
    CreatedComponents(sha, h, payload, event);
  }

  lemma CreatedHeader(sha: Hash, h: Header, payload: Json, event: Json)
    requires CreateEvent(sha, h, payload) == Event(event)
    ensures IsEventObject(event)
    ensures event.fields["event_type"] == Str(h.eventType) && event.fields["actor"] == Str(h.actor)
  {
    hide CreateEvent, EventMaterial;
    CreatedEvent(sha, h, payload, event);
  }

  lemma CreatedComponents(sha: Hash, h: Header, payload: Json, event: Json)
    requires CreateEvent(sha, h, payload) == Event(event)
    ensures IsComponent(h.eventType) && IsComponent(h.actor)
  {
    hide IsComponent, EventMaterial, IsHexDigest, IsNormalPayload, Digest;
  }

  lemma PlannedRegular(sha: Hash, files: Files, r: Request)
    requires PlanAppend(sha, files, r).Done?
    ensures RegularEvent(PlanAppend(sha, files, r).event)
  {
    hide CreateEvent, RegularEvent, ReadChain, ChainErrors, SameIdentity;
    var events := ReadChain(files).value;
    CreatedRegular(sha, HeaderFor(events, r), r.payload, PlanAppend(sha, files, r).event);
  }

  lemma FinalizedRegular(sha: Hash, files: Files, job: string, version: string, report: Option<Json>, now: string)
    requires files.Keys <= LEDGER_FILES
    ensures var z := Finalize(sha, files, job, version, report, now);
      z.files.Keys <= LEDGER_FILES && forall i :: 0 <= i < |z.added| ==> RegularEvent(z.added[i])
  {
    hide RegularEvent, PlanAppend, DataText, DefaultData, InferProject, ReadMapping, Attestation, FinalRequest, Print,
      ChainText, Manifest, DocumentText, Get;
    var staged := Staged(files, report);
    assert "final_report.json" in COMPATIBILITY_FILES;
    assert staged.Keys <= LEDGER_FILES;
    if InferProject(staged).Some? {
      var r := FinalRequest(staged, job, InferProject(staged).value, now);
      if PlanAppend(sha, staged, r).Done? { PlannedRegular(sha, staged, r); }
    }
  }

  lemma StepRegular(sha: Hash, job: string, h: History, op: Op)
    requires Regular(h)
    ensures Regular(Step(sha, job, h, op))
  {
    hide RegularEvent, PlanAppend, Finalize, DataText, Print, ChainText;
    match op
    case WriteOp(name, data) =>
    case AppendOp(r) => if PlanAppend(sha, h.files, r).Done? { PlannedRegular(sha, h.files, r); }
    case FinalizeOp(version, report, now) => FinalizedRegular(sha, h.files, job, version, report, now);
  }

  lemma {:induction false} RunRegular(sha: Hash, job: string, h: History, ops: seq<Op>)
    requires Regular(h)
    ensures Regular(Run(sha, job, h, ops))
    decreases |ops|
  {
    hide Regular, Step;
    if ops != [] {
      StepRegular(sha, job, h, ops[0]);
      RunRegular(sha, job, Step(sha, job, h, ops[0]), ops[1..]);
    }
  }

  // ---------------------------------------------------------------- agreement on sealed directories

  /** The manifest is the one of the other files, which include the chain and the attestation. */
  predicate IsSealed(sha: Hash, files: Files) {
    CHECKSUM_FILE in files && files[CHECKSUM_FILE] == DocumentText(Manifest(sha, files)) &&
    COMPATIBILITY_FILES + {CHAIN_FILE, ATTESTATION_FILE} <= files.Keys
  }

  lemma SealedIsSealed(sha: Hash, files: Files, attestation: Json)
    requires CHAIN_FILE in files && COMPATIBILITY_FILES <= files.Keys
    ensures IsSealed(sha, Sealed(sha, files, attestation))
  {
    hide DocumentText, COMPATIBILITY_FILES;
    var f := Sealed(sha, files, attestation);
    var attested := files[ATTESTATION_FILE := DocumentText(attestation)];
    NamesDistinct();
    assert DigestsOf(sha, attested, attested.Keys - {CHECKSUM_FILE}) == DigestsOf(sha, f, f.Keys - {CHECKSUM_FILE});
  }

  lemma FinalizeSeals(sha: Hash, files: Files, job: string, version: string, report: Option<Json>, now: string)
    requires Finalize(sha, files, job, version, report, now).outcome.Done?
    ensures IsSealed(sha, Finalize(sha, files, job, version, report, now).files)
  {
    hide IsSealed, PlanAppend, DataText, DefaultData, InferProject, ReadMapping, Attestation, FinalRequest, Print,
      ChainText, Sealed, Get;
    var staged := Staged(files, report);
    var r := FinalRequest(staged, job, InferProject(staged).value, now);
    var event := PlanAppend(sha, staged, r).event;
    var appended := Appended(staged, event);
    AppendedFiles(staged, event);
    var a := Attestation(sha, appended, version, r, Get(event.fields, "event_hash"));
    SealedIsSealed(sha, appended, a.value);
  }

  function ListedDigests(sha: Hash, files: Files): map<string, string> {
    map name | name in files && name != CHECKSUM_FILE :: sha(files[name])
  }

  lemma DigestAlgorithm()
    ensures DropDashes(Folded("sha256")) == "sha256"
  {
    assert Folded("sha256") == "sha256";
    assert "sha256"[1..] == "ha256" && "ha256"[1..] == "a256" && "a256"[1..] == "256" && "256"[1..] == "56";
    assert "56"[1..] == "6" && "6"[1..] == "";
  }

  lemma FilesEntries(sha: Hash, files: Files)
    requires MakesDigests(sha) && files.Keys <= LEDGER_FILES
    ensures var digests := DigestsOf(sha, files, files.Keys - {CHECKSUM_FILE});
      Collect(EntriesOfMap(digests, SortedKeys(digests.Keys))) == Some(ListedDigests(sha, files))
  {
    hide Collect, EntriesOfMap, SortedKeys, Distinct, IsHexDigest, PlainName, LEDGER_FILES;
    var digests := DigestsOf(sha, files, files.Keys - {CHECKSUM_FILE});
    var keys := SortedKeys(digests.Keys);
    forall k | k in keys ensures PlainName(k) { ListedNamePlain(files, k); }
    SortedKeysDistinct(digests.Keys);
    CollectPlain(digests, keys);
    assert (map k | k in keys :: digests[k].text) == ListedDigests(sha, files);
  }

  lemma ListedNamePlain(files: Files, name: string)
    requires files.Keys <= LEDGER_FILES && name in files && name != CHECKSUM_FILE
    ensures PlainName(name)
  {
    hide PlainName, COMPATIBILITY_FILES;
    LedgerNamesPlain(name);
  }

  lemma SealedEntries(sha: Hash, files: Files)
    requires MakesDigests(sha) && IsSealed(sha, files) && files.Keys <= LEDGER_FILES
    ensures ManifestEntries(files) == Some(ListedDigests(sha, files))
    ensures ManifestReadable(files) && Expected(files) == DigestsOf(sha, files, files.Keys - {CHECKSUM_FILE})
  {
    hide DocumentText, Collect, EntriesOfMap, SortedKeys, DigestsOf, COMPATIBILITY_FILES, LEDGER_FILES, Loads, ListedDigests;
    var m := Manifest(sha, files);
    ManifestLoads(files[CHECKSUM_FILE], m);
    DocumentReadsBack(files, CHECKSUM_FILE, m);
    ManifestFields(sha, files);
    FilesEntries(sha, files);
    ManifestPayload(sha, files);
    NamesDistinct();
    assert CHAIN_FILE in ListedDigests(sha, files) && CHECKSUM_FILE !in ListedDigests(sha, files) by {
      ListedKeys(sha, files);
    }
  }

  lemma ListedKeys(sha: Hash, files: Files)
    ensures ListedDigests(sha, files).Keys == files.Keys - {CHECKSUM_FILE}
  {
  }

  lemma ManifestLoads(text: string, m: Json)
    requires text == DocumentText(m)
    ensures Loads(text) == Some(m)
  {
    hide Print, Loads;
    LoadsPrinted(m, Indented, "\n");
  }

  lemma ManifestPayload(sha: Hash, files: Files)
    ensures var digests := DigestsOf(sha, files, files.Keys - {CHECKSUM_FILE});
      EntriesFrom(Manifest(sha, files)) ==
        (match Collect(EntriesOfMap(digests, SortedKeys(digests.Keys)))
         case None => None
         case Some(entries) => if entries == map[] || CHECKSUM_FILE in entries then None else Some(entries))
  {
    hide Collect, EntriesOfMap, SortedKeys, DigestsOf, DropDashes, Folded;
    DigestAlgorithm();
  }

  // ---------------------------------------------------------------- any directory with a plain manifest

  /** Files with plain names, not the manifest itself, and their digests. */
  predicate PlainDigests(fields: map<string, Json>) {
    fields != map[] &&
    forall k :: k in fields ==> PlainName(k) && k != CHECKSUM_FILE && fields[k].Str? && IsHexDigest(fields[k].text)
  }

  lemma PlainCollected(fields: map<string, Json>)
    requires PlainDigests(fields)
    ensures Collect(EntriesOfMap(fields, SortedKeys(fields.Keys))) == Some(ListedTexts(fields))
    ensures ListedTexts(fields) != map[] && CHECKSUM_FILE !in ListedTexts(fields)
  {
    hide Collect, EntriesOfMap, IsHexDigest, PlainName;
    SortedKeysDistinct(fields.Keys);
    CollectPlain(fields, SortedKeys(fields.Keys));
    assert (map k | k in SortedKeys(fields.Keys) :: fields[k].text) == ListedTexts(fields);
    var name :| name in fields;
    assert name in ListedTexts(fields);
  }

  function ListedTexts(expected: map<string, Json>): map<string, string>
    requires forall name :: name in expected ==> expected[name].Str?
  {
    map name | name in expected :: expected[name].text
  }

  /** A manifest of the library's form: names without separators, each with a lower-case digest. */
  predicate PlainManifest(files: Files) { ManifestReadable(files) && PlainDigests(Expected(files)) }

  lemma PlainEntries(files: Files)
    requires PlainManifest(files)
    ensures ManifestEntries(files) == Some(ListedTexts(Expected(files)))
  {
    hide Collect, EntriesOfMap, SortedKeys, Loads, PlainDigests, ListedTexts, DropDashes, Folded;
    DigestAlgorithm();
    PlainCollected(Expected(files));
  }

  /** The manifest forms that are read alike: an object under `files` or under `checksums`, a list of one object
      for each file, and the bare object. */
  lemma ManifestForms(fields: map<string, Json>)
    requires PlainDigests(fields)
    ensures EntriesFrom(Obj(map["files" := Obj(fields)])) == Some(ListedTexts(fields))
    ensures EntriesFrom(Obj(map["checksums" := Obj(fields)])) == Some(ListedTexts(fields))
    ensures EntriesFrom(Obj(map["files" := Arr(ItemList(fields, SortedKeys(fields.Keys)))])) == Some(ListedTexts(fields))
  {
    hide Collect, EntriesOfMap, EntriesOfList, SortedKeys, DropDashes, Folded, PlainDigests, ListedTexts;
    DigestAlgorithm();
    PlainCollected(fields);
    ListLikeMap(fields, SortedKeys(fields.Keys));
    FormNames();
  }

  lemma BareManifest(fields: map<string, Json>)
    requires PlainDigests(fields)
    requires {"algorithm", "files", "checksums", "schema_version", "created_at"} !! fields.Keys
    ensures EntriesFrom(Obj(fields)) == Some(ListedTexts(fields))
  {
    hide Collect, EntriesOfMap, EntriesOfList, SortedKeys, DropDashes, Folded, PlainDigests, ListedTexts;
    DigestAlgorithm();
    PlainCollected(fields);
    assert fields - {"algorithm", "schema_version", "created_at"} == fields;
  }

  lemma FormNames()
    ensures "files" != "algorithm" && "checksums" != "algorithm" && "files" != "checksums"
  {
    assert "files"[0] == 'f' && "checksums"[0] == 'c' && "algorithm"[0] == 'a';
  }

  /** A list of one object for each file. */
  function ItemList(fields: map<string, Json>, keys: seq<string>): (r: seq<Json>)
    requires forall k :: k in keys ==> k in fields
    ensures |r| == |keys|
    ensures forall i :: 0 <= i < |r| ==> r[i] == Obj(map["path" := Str(keys[i]), "sha256" := fields[keys[i]]])
  {
    seq(|keys|, i requires 0 <= i < |keys| => Obj(map["path" := Str(keys[i]), "sha256" := fields[keys[i]]]))
  }

  lemma ListLikeMap(fields: map<string, Json>, keys: seq<string>)
    requires forall k :: k in keys ==> k in fields
    ensures EntriesOfList(ItemList(fields, keys)) == Some(EntriesOfMap(fields, keys))
  {
    var items := ItemList(fields, keys);
    assert forall i :: 0 <= i < |items| ==> items[i].Obj?;
    var listed := EntriesOfList(items).value;
    forall i | 0 <= i < |items| ensures listed[i] == EntriesOfMap(fields, keys)[i] {
      ItemEntry(items[i].fields, keys[i], fields[keys[i]]);
    }
    assert listed == EntriesOfMap(fields, keys);
  }

  lemma ItemEntry(item: map<string, Json>, path: string, digest: Json)
    requires item == map["path" := Str(path), "sha256" := digest]
    ensures GetOr(item, "path", Get(item, "file")) == Str(path) && GetOr(item, "sha256", Get(item, "digest")) == digest
  {
    assert "path"[0] == 'p' && "sha256"[0] == 's';
  }

  lemma PlainCovers(sha: Hash, files: Files)
    requires PlainManifest(files)
    ensures var entries := ListedTexts(Expected(files));
      Covers(sha, files, Expected(files)) <==>
        (forall name :: name in entries ==> name in files && sha(files[name]) == entries[name])
        && files.Keys - {CHECKSUM_FILE} <= entries.Keys
  {
    hide ManifestReadable, Expected, IsHexDigest, PlainName;
    var entries, expected := ListedTexts(Expected(files)), Expected(files);
    if (forall name :: name in entries ==> name in files && sha(files[name]) == entries[name]) && files.Keys - {CHECKSUM_FILE} <= entries.Keys {
      assert expected.Keys == files.Keys - {CHECKSUM_FILE} by {
        forall name | name in expected ensures name in files.Keys - {CHECKSUM_FILE} { assert name in entries; }
        assert entries.Keys == expected.Keys;
      }
      forall name | name in expected ensures expected[name] == Str(sha(files[name])) { assert name in entries; }
    }
  }

  lemma PlainChecks(sha: Hash, a: map<string, Json>, events: seq<Json>, expected: map<string, Json>)
    requires forall name :: name in expected ==> expected[name].Str?
    ensures AttestationChecks(sha, a, events, ListedTexts(expected)) <==> AttestationAccepted(sha, a, events, expected)
  {
    var entries := ListedTexts(expected);
    var digests := map name | name in COMPATIBILITY_FILES && name in entries :: Str(entries[name]);
    assert digests == CompatibilityDigests(expected);
    assert entries.Keys == expected.Keys;
    assert COMPATIBILITY_FILES <= entries.Keys <==> digests.Keys == COMPATIBILITY_FILES;
    hide Get, FinalEvent, CompatibilityDigests, ListedTexts, AcceptsManifestChecksum, AcceptsSigner, COMPATIBILITY_FILES;
  }

  /** Every line of the chain is canonical, and no event has an irregular type, actor, digest or payload text. */
  predicate StrictChain(text: string) {
    && (forall i :: 0 <= i < |SplitLines(text)| ==> LineAccepted(SplitLines(text)[i]))
    && (ReadEvents(text).Some? ==> forall i :: 0 <= i < |ReadEvents(text).value| ==> StrictEvent(ReadEvents(text).value[i]))
  }

  lemma StrictChainFile(sha: Hash, text: string)
    ensures ChainFileAccepted(sha, text) <==>
      StrictChain(text) && ReadEvents(text).Some? && ValidChain(sha, ReadEvents(text).value)
  {
    hide EventsAccepted, ValidChain, StrictEvent, LineAccepted, ReadEvents, SplitLines;
    if ReadEvents(text).Some? { StandaloneAcceptsStrictChains(sha, ReadEvents(text).value); }
  }

  /** On every directory with a plain manifest, whatever else is in it, the standalone verifier accepts exactly
      what the library verifies and whose chain, if there is one, is strict. */
  lemma VerifiersAgree(sha: Hash, files: Files)
    requires PlainManifest(files)
    ensures BundleAccepted(sha, files) <==>
      Verified(sha, files) && (CHAIN_FILE in files ==> StrictChain(files[CHAIN_FILE]))
  {
    hide ManifestEntries, ReadMapping, AttestationChecks, AttestationAccepted, ListedTexts, ChainFileAccepted, StrictChain,
      Covers, ReadEvents, ValidChain, Expected, IsHexDigest, PlainName, Get;
    PlainEntries(files);
    PlainCovers(sha, files);
    if CHAIN_FILE in files {
      StrictChainFile(sha, files[CHAIN_FILE]);
      if ReadEvents(files[CHAIN_FILE]).Some? && ReadMapping(files, ATTESTATION_FILE).Some? {
        PlainChecks(sha, ReadMapping(files, ATTESTATION_FILE).value, ReadEvents(files[CHAIN_FILE]).value, Expected(files));
      }
    }
  }

  // ---------------------------------------------------------------- finalized directories

  /** What the standalone verifier asks beyond a valid chain, when every event came from the ledger. */
  predicate PayloadsStrict(log: seq<Json>) {
    forall i :: 0 <= i < |log| ==> IsEventObject(log[i]) && PayloadIsCanonical(log[i].fields["payload"])
  }

  lemma RegularStrict(sha: Hash, log: seq<Json>, i: nat)
    requires MakesDigests(sha) && ValidLinks(sha, log) && i < |log| && RegularEvent(log[i])
    ensures StrictEvent(log[i]) <==> PayloadIsCanonical(log[i].fields["payload"])
  {
    hide PayloadIsCanonical, IsNormalPayload, AllFinite, Print, EqualsIndex, IsComponent, IsHexDigest;
    assert ValidEvent(sha, log, i);
  }

  lemma RegularAccepted(sha: Hash, log: seq<Json>)
    requires MakesDigests(sha) && ValidChain(sha, log) && forall i :: 0 <= i < |log| ==> RegularEvent(log[i])
    ensures EventsAccepted(sha, log) <==> PayloadsStrict(log)
  {
    hide StrictEvent, EventsAccepted, PayloadIsCanonical, IsComponentValue, ValidEvent;
    StandaloneAcceptsStrictChains(sha, log);
    forall i | 0 <= i < |log| ensures StrictEvent(log[i]) <==> PayloadIsCanonical(log[i].fields["payload"]) {
      RegularStrict(sha, log, i);
    }
  }

  lemma ValidEventFinite(sha: Hash, log: seq<Json>, i: nat)
    requires ValidLinks(sha, log) && i < |log|
    ensures AllFinite(log[i])
  {
    hide IsNormalPayload, Print, EqualsIndex;
    assert ValidEvent(sha, log, i);
    var f := log[i].fields;
    forall k | k in f ensures AllFinite(f[k]) {
      if k != "event_hash" {
        assert k in Material(log[i]).fields && Material(log[i]).fields[k] == f[k];
      } else {
        assert f["event_hash"].Str?;
      }
    }
  }

  /** The chain file of a sound directory: readable and made of accepted events. */
  lemma SoundChainFile(sha: Hash, files: Files, log: seq<Json>)
    requires Sound(sha, files, log) && log != []
    ensures ChainFileAccepted(sha, files[CHAIN_FILE]) <==> AllLineSafe(log) && EventsAccepted(sha, log)
  {
    hide FileText, EventsAccepted, ValidEvent, Loads, Print, AllFinite, LineSafe, SplitLines;
    ReadSound(sha, files, log);
    if AllLineSafe(log) {
      SafeLinesSplit(log);
      LinesParse(log);
      forall i | 0 <= i < |log| ensures LineAccepted(Lines(log)[i]) {
        ValidEventFinite(sha, log, i);
        assert ParseLines(Lines(log))[i] == Some(log[i]);
      }
    }
  }

  lemma SealedChecks(sha: Hash, files: Files, a: map<string, Json>, log: seq<Json>)
    requires COMPATIBILITY_FILES <= files.Keys && CHECKSUM_FILE !in COMPATIBILITY_FILES
    ensures AttestationChecks(sha, a, log, ListedDigests(sha, files)) <==>
            AttestationAccepted(sha, a, log, DigestsOf(sha, files, files.Keys - {CHECKSUM_FILE}))
  {
    var entries := ListedDigests(sha, files);
    var digests := map name | name in COMPATIBILITY_FILES && name in entries :: Str(entries[name]);
    assert digests == CompatibilityDigests(DigestsOf(sha, files, files.Keys - {CHECKSUM_FILE}));
    assert digests.Keys == COMPATIBILITY_FILES;
    ListedKeys(sha, files);
    hide Get, FinalEvent, CompatibilityDigests, DigestsOf, ListedDigests, AcceptsManifestChecksum, AcceptsSigner, COMPATIBILITY_FILES;
  }

  /** On a sealed directory of the ledger the standalone verifier accepts what the library verifies, except
      that no payload text may start like an absolute path, not even text of several lines. */
  lemma AgreeOnSealed(sha: Hash, h: History)
    requires MakesDigests(sha) && Regular(h) && Sound(sha, h.files, h.log) && IsSealed(sha, h.files)
    ensures BundleAccepted(sha, h.files) <==> Verified(sha, h.files) && PayloadsStrict(h.log)
  {
    hide ManifestEntries, ManifestReadable, Expected, ReadMapping, AttestationChecks, AttestationAccepted, DigestsOf,
      ListedDigests, COMPATIBILITY_FILES, LEDGER_FILES, ChainFileAccepted, EventsAccepted, PayloadsStrict, FileText,
      RegularEvent, ValidEvent, LineSafe, Manifest, DocumentText, Covers, IsHexDigest, ReadEvents;
    SealedEntries(sha, h.files);
    SealedCovers(sha, h.files);
    ListedMatch(sha, h.files);
    NamesDistinct();
    SoundChainFile(sha, h.files, h.log);
    ReadSound(sha, h.files, h.log);
    RegularAccepted(sha, h.log);
    if ReadMapping(h.files, ATTESTATION_FILE).Some? {
      SealedChecks(sha, h.files, ReadMapping(h.files, ATTESTATION_FILE).value, h.log);
    }
  }

  lemma ListedMatch(sha: Hash, files: Files)
    ensures var entries := ListedDigests(sha, files);
      entries.Keys == files.Keys - {CHECKSUM_FILE} && forall name :: name in entries ==> sha(files[name]) == entries[name]
  {
  }

  /** In every history from an empty directory that ends with a successful `finalize`, the two verifiers
      agree, except on payload text of several lines that starts like an absolute path. */
  lemma VerifiersAgreeAfterFinalize(sha: Hash, job: string, ops: seq<Op>, version: string, report: Option<Json>, now: string)
    requires MakesDigests(sha)
    requires Finalize(sha, Run(sha, job, START, ops).files, job, version, report, now).outcome.Done?
    ensures var end := Step(sha, job, Run(sha, job, START, ops), FinalizeOp(version, report, now));
      BundleAccepted(sha, end.files) <==> Verified(sha, end.files) && PayloadsStrict(end.log)
  {
    hide Run, Finalize, Verified, Sound, Regular, BundleAccepted, PayloadsStrict, IsSealed, IsHexDigest;
    var before := Run(sha, job, START, ops);
    StartRegular();
    SoundAtEnd(sha, job, ops);
    RunRegular(sha, job, START, ops);
    StepKeepsSound(sha, job, before, FinalizeOp(version, report, now));
    StepRegular(sha, job, before, FinalizeOp(version, report, now));
    FinalizeSeals(sha, before.files, job, version, report, now);
    AgreeOnSealed(sha, Step(sha, job, before, FinalizeOp(version, report, now)));
  }

  lemma StartRegular()
    ensures Regular(START)
  {
  }

  predicate NoBreak(t: string) { !HasNewline(t) && NoRawBreak(t) }

  /** No string inside the value holds a carriage return, a line feed or a Unicode line separator. */
  predicate NoBreaks(v: Json) {
    match v
    case Str(t) => NoBreak(t)
    case Arr(items) => forall i :: 0 <= i < |items| ==> NoBreaks(items[i])
    case Obj(fields) => forall k :: k in fields ==> NoBreak(k) && NoBreaks(fields[k])
    case _ => true
  }

  lemma {:induction false} BreakFree(v: Json)
    requires NoBreaks(v)
    ensures LineSafe(v) && (IsNormalPayload(v) ==> PayloadIsCanonical(v))
  {
    match v
    case Arr(items) => forall i | 0 <= i < |items|
      ensures LineSafe(items[i]) && (IsNormalPayload(items[i]) ==> PayloadIsCanonical(items[i])) { BreakFree(items[i]); }
    case Obj(fields) => forall k | k in fields
      ensures LineSafe(fields[k]) && (IsNormalPayload(fields[k]) ==> PayloadIsCanonical(fields[k])) { BreakFree(fields[k]); }
    case _ =>
  }

  /** A finalized directory none of whose events holds a line break satisfies both verifiers. */
  lemma BreakFreeHistoriesSatisfyBoth(sha: Hash, job: string, ops: seq<Op>, version: string, report: Option<Json>, now: string)
    requires MakesDigests(sha)
    requires Finalize(sha, Run(sha, job, START, ops).files, job, version, report, now).outcome.Done?
    requires var log := Step(sha, job, Run(sha, job, START, ops), FinalizeOp(version, report, now)).log;
      forall i :: 0 <= i < |log| ==> NoBreaks(log[i])
    ensures var end := Step(sha, job, Run(sha, job, START, ops), FinalizeOp(version, report, now));
      Verified(sha, end.files) && BundleAccepted(sha, end.files)
  {
    hide Run, Step, Finalize, Verified, BundleAccepted, LineSafe, NoBreaks, PayloadIsCanonical, IsNormalPayload, IsHexDigest;
    var before := Run(sha, job, START, ops);
    var end := Step(sha, job, before, FinalizeOp(version, report, now));
    VerifiersAgreeAfterFinalize(sha, job, ops, version, report, now);
    FinalizeEstablishesVerify(sha, job, ops, version, report, now);
    SoundAtEnd(sha, job, ops);
    StepKeepsSound(sha, job, before, FinalizeOp(version, report, now));
    SoundIsNormal(sha, end);
    forall i | 0 <= i < |end.log| ensures LineSafe(end.log[i]) && PayloadIsCanonical(end.log[i].fields["payload"]) {
      BreakFreePayload(end.log[i]);
    }
  }

  lemma BreakFreePayload(event: Json)
    requires IsEventObject(event) && NoBreaks(event) && IsNormalPayload(event.fields["payload"])
    ensures LineSafe(event) && PayloadIsCanonical(event.fields["payload"])
  {
    assert NoBreaks(event.fields["payload"]);
    hide NoBreaks, LineSafe, PayloadIsCanonical, IsNormalPayload;
    BreakFree(event);
    BreakFree(event.fields["payload"]);
  }

  lemma SoundIsNormal(sha: Hash, h: History)
    requires Sound(sha, h.files, h.log)
    ensures forall i :: 0 <= i < |h.log| ==> IsEventObject(h.log[i]) && IsNormalPayload(h.log[i].fields["payload"])
  {
    hide IsNormalPayload, AllFinite, Print, EqualsIndex, FileText;
    forall i | 0 <= i < |h.log| ensures IsEventObject(h.log[i]) && IsNormalPayload(h.log[i].fields["payload"]) {
      assert ValidEvent(sha, h.log, i);
    }
  }

  /** The text the two verifiers disagree about: several lines, the first one like an absolute path. */
  lemma MultiLinePathDivides()
    ensures IsNormalPayload(Str("/a\n")) && !PayloadIsCanonical(Str("/a\n"))
  {
    assert "/a\n"[2] == '\n';
  }

  lemma FieldNameSafe(k: string)
    requires k in EVENT_FIELDS
    ensures NoRawBreak(k)
  {
    if k == "schema_version" {
    } else if k == "hash_algorithm" {
    } else if k == "sequence" {
    } else if k == "event_type" {
    } else if k == "timestamp" {
    } else if k == "job_id" {
    } else if k == "project_id" {
    } else if k == "actor" {
    } else if k == "previous_event_hash" {
    } else if k == "payload" {
    } else if k == "payload_hash" {
    } else {
      assert k == "event_hash";
    }
  }

  predicate HeaderSafe(h: Header) {
    NoRawBreak(h.eventType) && NoRawBreak(h.timestamp) && NoRawBreak(h.job) && NoRawBreak(h.project) && NoRawBreak(h.actor)
    && NoRawBreak(h.previous)
  }

  lemma DigestSafe(sha: Hash, t: string)
    requires MakesDigests(sha)
    ensures NoRawBreak(sha(t))
  {
    HexSafe(sha(t));
  }

  /** A created event is line-safe if its header and its payload are. */
  lemma CreatedLineSafe(sha: Hash, h: Header, payload: Json, event: Json)
    requires MakesDigests(sha) && CreateEvent(sha, h, payload) == Event(event) && HeaderSafe(h) && LineSafe(payload)
    ensures IsEventObject(event) && LineSafe(event)
  {
    hide CreateEvent, EventMaterial, NoRawBreak, IsHexDigest, Print, AllFinite, IsNormalPayload;
    CreatedEvent(sha, h, payload, event);
    ConstantsSafe();
    DigestSafe(sha, MaterialText(event));
    if Canonical(payload).Some? { DigestSafe(sha, Canonical(payload).value); }
    forall k | k in event.fields ensures NoRawBreak(k) && LineSafe(event.fields[k]) {
      FieldNameSafe(k);
      assert k in EVENT_FIELDS;
    }
  }

  lemma ConstantsSafe()
    ensures NoRawBreak("1.0") && NoRawBreak("sha256")
  {
  }

  /** A history after which the library verifies the directory and the standalone verifier rejects it: the
      status of the final report is text of two lines that starts like an absolute path. */
  lemma VerifiedButRejected(sha: Hash, version: string)
    requires MakesDigests(sha)
    ensures var op := FinalizeOp(version, Some(ReportWith("/a\n")), "Z"); var end := Run(sha, "j", START, [op]);
      && Finalize(sha, START.files, "j", version, op.report, op.now).outcome.Done?
      && Verified(sha, end.files) && !BundleAccepted(sha, end.files)
  {
    hide Finalize, Verified, Step, Run, CreateEvent, LineSafe, AllLineSafe, FinalPayload, ReportWith, BundleAccepted, HeaderFields,
      PayloadIsCanonical, LooksAbsolute, IsNormalPayload, IsHexDigest;
    var op := FinalizeOp(version, Some(ReportWith("/a\n")), "Z");
    TwoLinesNoPath();
    FinalizeAtStart(sha, "j", version, "/a\n", "Z");
    OneOp(sha, "j", op);
    NoOp(sha, "j");
    var event := Finalize(sha, map[], "j", version, op.report, "Z").outcome.event;
    var h := Header(1, "evidence_finalized", "Z", "j", "unknown-project", "evidence_ledger", GENESIS);
    FinalizeEstablishesVerify(sha, "j", [], version, op.report, "Z");
    VerifiersAgreeAfterFinalize(sha, "j", [], version, op.report, "Z");
    StepFinalize(sha, "j", START, op);
    CreatedEvent(sha, h, FinalPayload("/a\n"), event);
    FinalSafe();
    FinalHeaderSafe();
    CreatedLineSafe(sha, h, FinalPayload("/a\n"), event);
    SafeSnoc([], event);
    AllSafeNone();
    PathLikePayload(event);
    assert Run(sha, "j", START, [op]).log == [event];
  }

  lemma AllSafeNone()
    ensures AllLineSafe([])
  {
  }

  lemma TwoLinesNoPath()
    ensures !LooksAbsolute("/a\n")
  {
    MultiLinePathDivides();
  }

  lemma FinalSafe()
    ensures LineSafe(FinalPayload("/a\n"))
  {
    assert NoRawBreak("/a\n") && NoRawBreak("status") && NoRawBreak("success") && NoRawBreak("compatibility_file_count");
  }

  lemma FinalHeaderSafe()
    ensures HeaderSafe(Header(1, "evidence_finalized", "Z", "j", "unknown-project", "evidence_ledger", GENESIS))
  {
    hide NoRawBreak, IsComponent, IsHexDigest, GENESIS;
    HeaderAtStart();
    ComponentSafe("evidence_finalized");
    ComponentSafe("evidence_ledger");
    HexSafe(GENESIS);
    NamesSafe();
  }

  lemma ComponentSafe(t: string)
    requires IsComponent(t)
    ensures NoRawBreak(t)
  {
  }

  lemma HexSafe(t: string)
    requires IsHexDigest(t)
    ensures NoRawBreak(t)
  {
  }

  lemma NamesSafe()
    ensures NoRawBreak("unknown-project") && NoRawBreak("Z") && NoRawBreak("j")
  {
  }

  lemma PathLikePayload(event: Json)
    requires IsEventObject(event) && event.fields["payload"] == FinalPayload("/a\n")
    ensures !PayloadsStrict([event])
  {
    MultiLinePathDivides();
    assert FinalPayload("/a\n").fields["status"] == Str("/a\n");
    assert !PayloadIsCanonical(FinalPayload("/a\n"));
    assert [event][0] == event && "payload" in EVENT_FIELDS;
  }
}
