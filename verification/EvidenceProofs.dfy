/** The evidence ledger over whole histories: the chain file only grows and stays valid, and a finished
    `finalize` is exactly what `verify` accepts. */
module EvidenceProofs {
  import opened Text
  import opened Json
  import opened JsonRoundTrip
  import opened JsonLines
  import opened JsonPrefix
  import opened EventChain
  import opened ChainProofs
  import opened Evidence
  import opened EvidenceVerify

  lemma NamesDistinct()
    ensures CHAIN_FILE != ATTESTATION_FILE && CHAIN_FILE != CHECKSUM_FILE && ATTESTATION_FILE != CHECKSUM_FILE
    ensures CHAIN_FILE !in COMPATIBILITY_FILES && ATTESTATION_FILE !in COMPATIBILITY_FILES
    ensures CHECKSUM_FILE !in COMPATIBILITY_FILES
  {
    assert |CHAIN_FILE| == 21 && |ATTESTATION_FILE| == 16 && |CHECKSUM_FILE| == 20;
    assert CHECKSUM_FILE[0] == 'm' && ATTESTATION_FILE[0] == 'a';
  }

  /** The chain file holds exactly the events appended so far, and they form a valid chain. */
  ghost predicate Sound(sha: Hash, files: Files, log: seq<Json>) {
    (CHAIN_FILE in files <==> log != []) && ChainText(files) == FileText(log) && ValidLinks(sha, log)
  }

  lemma ValidLinksAreObjects(sha: Hash, log: seq<Json>)
    requires ValidLinks(sha, log)
    ensures AllObjects(log) && forall i :: 0 <= i < |log| ==> IsEventObject(log[i]) && log[i].fields["event_hash"].Str?
  {
    hide EqualsIndex, IsNormalPayload, AllFinite, Print;
    forall i | 0 <= i < |log| ensures IsEventObject(log[i]) && log[i].fields["event_hash"].Str? {
      assert ValidEvent(sha, log, i);
    }
  }

  lemma ReadSound(sha: Hash, files: Files, log: seq<Json>)
    requires Sound(sha, files, log)
    ensures ReadChain(files) == if AllLineSafe(log) then Some(log) else None
  {
    hide ValidEvent, ReadEvents, FileText;
    if log != [] {
      ValidLinksAreObjects(sha, log);
      ReadableExactlyWhenSafe(log);
    }
  }

  lemma HeaderContinues(sha: Hash, log: seq<Json>, r: Request)
    requires ValidLinks(sha, log) && SameIdentity(log, r.job, r.project)
    ensures Continues(HeaderFor(log, r), log)
  {
    hide ValidEvent;
    ValidLinksAreObjects(sha, log);
    if log != [] {
      assert IsEventObject(log[0]);
      assert "job_id" in EVENT_FIELDS && "project_id" in EVENT_FIELDS;
    }
  }

  /** An append does what creating the event does. */
  function Decision(c: Created): Outcome {
    match c
    case Refused(reason) => Failed(EventRefused(reason))
    case Event(event) => Done(event)
  }

  /** On a sound directory `append_event` refuses an unreadable chain, then a foreign identity, then an event
      that cannot be created, and nothing else; what it accepts continues the chain. */
  lemma PlanOnSound(sha: Hash, files: Files, log: seq<Json>, r: Request)
    requires Sound(sha, files, log)
    ensures !AllLineSafe(log) ==> PlanAppend(sha, files, r) == Failed(ChainInvalid)
    ensures AllLineSafe(log) && !SameIdentity(log, r.job, r.project) ==>
      PlanAppend(sha, files, r) == Failed(IdentityConflict)
    ensures AllLineSafe(log) && SameIdentity(log, r.job, r.project) ==>
      PlanAppend(sha, files, r) == Decision(CreateEvent(sha, HeaderFor(log, r), r.payload))
    ensures PlanAppend(sha, files, r).Done? ==>
      var event := PlanAppend(sha, files, r).event;
      AllLineSafe(log) && CreateEvent(sha, HeaderFor(log, r), r.payload) == Event(event) &&
      IsEventObject(event) && LastHash(log + [event]) == event.fields["event_hash"] && ValidChain(sha, log + [event])
  {
    hide ValidEvent, ChainErrors, SameIdentity, CreateEvent, IsEventObject, LastHash, FileText;
    ReadSound(sha, files, log);
    ErrorsOfChain(sha, log);
    var plan := PlanAppend(sha, files, r);
    if plan.Done? {
      HeaderContinues(sha, log, r);
      CreatedEvent(sha, HeaderFor(log, r), r.payload, plan.event);
      AppendKeepsChain(sha, log, HeaderFor(log, r), r.payload, plan.event);
    }
  }

  lemma AppendedSound(sha: Hash, files: Files, log: seq<Json>, event: Json)
    requires Sound(sha, files, log) && ValidLinks(sha, log + [event])
    ensures Sound(sha, Appended(files, event), log + [event])
  {
    hide ValidEvent, Print, FileText;
    FileTextAppend(log, event);
    NamesDistinct();
  }

  // ---------------------------------------------------------------- sealing

  lemma DocumentReadsBack(files: Files, name: string, v: Json)
    requires name in files && files[name] == DocumentText(v)
    ensures ReadMapping(files, name) == match v case Obj(fields) => Some(fields) case _ => None
  {
    hide Print, Loads;
    LoadsPrinted(v, Indented, "\n");
  }

  lemma ManifestFields(sha: Hash, files: Files)
    ensures var m := Manifest(sha, files).fields;
      Get(m, "algorithm") == Str("sha256") &&
      Get(m, "files") == Obj(DigestsOf(sha, files, files.Keys - {CHECKSUM_FILE}))
  {
    hide DigestsOf;
  }

  lemma ChecksumAndSignerAccepted(sha: Hash, digests: map<string, Json>)
    ensures AcceptsManifestChecksum(sha, ManifestChecksum(sha, digests), digests)
    ensures AcceptsSigner(Signer())
  {
    hide DigestMapChecksum;
  }

  lemma AttestationIdentity(sha: Hash, files: Files, version: string, r: Request, finalHash: Json)
    requires Attestation(sha, files, version, r, finalHash).Some?
    ensures var v := Attestation(sha, files, version, r, finalHash).value;
      v.Obj? && Get(v.fields, "job_id") == Str(r.job) && Get(v.fields, "project_id") == Str(r.project)
      && Get(v.fields, "final_event_hash") == finalHash
  {
    hide DigestsOf, ReadMapping, SubObject, GetOr, ValidationSummary, SandboxBackend, ManifestChecksum, Signer;
  }

  lemma AttestationVersions(sha: Hash, files: Files, version: string, r: Request, finalHash: Json)
    requires Attestation(sha, files, version, r, finalHash).Some?
    ensures var v := Attestation(sha, files, version, r, finalHash).value;
      v.Obj? && Get(v.fields, "evidence_schema_version") == Str("2.0") && Get(v.fields, "hash_algorithm") == Str("sha256")
  {
    hide DigestsOf, ReadMapping, SubObject, GetOr, ValidationSummary, SandboxBackend, ManifestChecksum, Signer;
  }

  lemma AttestationContract(sha: Hash, files: Files, version: string, r: Request, finalHash: Json)
    requires Attestation(sha, files, version, r, finalHash).Some?
    ensures var v := Attestation(sha, files, version, r, finalHash).value;
      v.Obj? && Get(v.fields, "contract_version") == Str("upg.evidence/v1")
  {
    hide DigestsOf, ReadMapping, SubObject, GetOr, ValidationSummary, SandboxBackend, ManifestChecksum, Signer;
  }

  lemma AttestationSeals(sha: Hash, files: Files, version: string, r: Request, finalHash: Json)
    requires Attestation(sha, files, version, r, finalHash).Some?
    ensures var v := Attestation(sha, files, version, r, finalHash).value;
      v.Obj? && Get(v.fields, "manifest_checksum") == ManifestChecksum(sha, DigestsOf(sha, files, COMPATIBILITY_FILES))
      && Get(v.fields, "signer") == Signer()
  {
    hide DigestsOf, ReadMapping, SubObject, GetOr, ValidationSummary, SandboxBackend, ManifestChecksum, Signer;
  }

  // ---------------------------------------------------------------- the sealed directory

  lemma SealedFiles(sha: Hash, files: Files, attestation: Json)
    requires CHAIN_FILE in files && COMPATIBILITY_FILES <= files.Keys
    ensures var f := Sealed(sha, files, attestation);
      && f.Keys == files.Keys + {ATTESTATION_FILE, CHECKSUM_FILE}
      && f[ATTESTATION_FILE] == DocumentText(attestation)
      && f[CHECKSUM_FILE] == DocumentText(Manifest(sha, files[ATTESTATION_FILE := DocumentText(attestation)]))
      && (forall name :: name in files && name != ATTESTATION_FILE && name != CHECKSUM_FILE ==> f[name] == files[name])
  {
    hide DocumentText, Manifest;
    NamesDistinct();
  }

  lemma SealedManifest(sha: Hash, files: Files, attestation: Json)
    requires CHAIN_FILE in files && COMPATIBILITY_FILES <= files.Keys
    ensures var f := Sealed(sha, files, attestation);
      ManifestReadable(f) && Expected(f) == DigestsOf(sha, f, f.Keys - {CHECKSUM_FILE})
  {
    hide DocumentText, Manifest, Sealed, Get, ReadMapping, COMPATIBILITY_FILES;
    var f := Sealed(sha, files, attestation);
    var attested := files[ATTESTATION_FILE := DocumentText(attestation)];
    SealedFiles(sha, files, attestation);
    NamesDistinct();
    DocumentReadsBack(f, CHECKSUM_FILE, Manifest(sha, attested));
    ManifestFields(sha, attested);
    assert DigestsOf(sha, attested, attested.Keys - {CHECKSUM_FILE}) == DigestsOf(sha, f, f.Keys - {CHECKSUM_FILE});
  }

  lemma SealedDigests(sha: Hash, files: Files, f: Files)
    requires COMPATIBILITY_FILES <= files.Keys && COMPATIBILITY_FILES <= f.Keys
    requires CHECKSUM_FILE !in COMPATIBILITY_FILES
    requires forall name :: name in COMPATIBILITY_FILES ==> f[name] == files[name]
    ensures CompatibilityDigests(DigestsOf(sha, f, f.Keys - {CHECKSUM_FILE})) == DigestsOf(sha, files, COMPATIBILITY_FILES)
    ensures DigestsOf(sha, files, COMPATIBILITY_FILES).Keys == COMPATIBILITY_FILES
  {
  }

  /** The event a `finalize` appends last. */
  predicate IsFinalEvent(event: Json, r: Request) {
    IsEventObject(event) && event.fields["event_type"] == Str("evidence_finalized")
    && event.fields["job_id"] == Str(r.job) && event.fields["project_id"] == Str(r.project)
  }

  lemma SealedAttestation(sha: Hash, files: Files, f: Files, log: seq<Json>, version: string, r: Request, a: Json)
    requires log != [] && IsFinalEvent(log[|log| - 1], r)
    requires Attestation(sha, files, version, r, LastHash(log)) == Some(a)
    requires COMPATIBILITY_FILES <= files.Keys && COMPATIBILITY_FILES <= f.Keys
    requires forall name :: name in COMPATIBILITY_FILES ==> f[name] == files[name]
    ensures a.Obj? && AttestationAccepted(sha, a.fields, log, DigestsOf(sha, f, f.Keys - {CHECKSUM_FILE}))
  {
    hide Attestation, DigestsOf, CompatibilityDigests, AcceptsManifestChecksum, AcceptsSigner;
    NamesDistinct();
    AttestationIdentity(sha, files, version, r, LastHash(log));
    AttestationVersions(sha, files, version, r, LastHash(log));
    AttestationContract(sha, files, version, r, LastHash(log));
    AttestationSeals(sha, files, version, r, LastHash(log));
    var digests := DigestsOf(sha, files, COMPATIBILITY_FILES);
    ChecksumAndSignerAccepted(sha, digests);
    SealedDigests(sha, files, f);
    assert "job_id" in EVENT_FIELDS && "project_id" in EVENT_FIELDS && "event_type" in EVENT_FIELDS
      && "event_hash" in EVENT_FIELDS;
  }

  /** A sealed directory verifies exactly when its chain can be read back. */
  lemma SealedVerifies(sha: Hash, files: Files, log: seq<Json>, version: string, r: Request, a: Json)
    requires Sound(sha, files, log) && log != [] && COMPATIBILITY_FILES <= files.Keys
    requires IsFinalEvent(log[|log| - 1], r)
    requires Attestation(sha, files, version, r, LastHash(log)) == Some(a)
    ensures Verified(sha, Sealed(sha, files, a)) <==> AllLineSafe(log)
    ensures Sound(sha, Sealed(sha, files, a), log)
  {
    hide DocumentText, Sealed, Attestation, ReadMapping, DigestsOf, AttestationAccepted, Get, FileText, ReadChain,
      IsFinalEvent, LastHash, ValidEvent;
    var f := Sealed(sha, files, a);
    SealedFiles(sha, files, a);
    SealedManifest(sha, files, a);
    NamesDistinct();
    assert Sound(sha, f, log);
    ReadSound(sha, f, log);
    SealedAttestation(sha, files, f, log, version, r, a);
    DocumentReadsBack(f, ATTESTATION_FILE, a);
    SealedCovers(sha, f);
  }

  lemma SealedCovers(sha: Hash, f: Files)
    requires CHECKSUM_FILE in f
    ensures Covers(sha, f, DigestsOf(sha, f, f.Keys - {CHECKSUM_FILE}))
  {
  }

  // ---------------------------------------------------------------- finalize

  lemma StagedFiles(sha: Hash, files: Files, log: seq<Json>, report: Option<Json>)
    requires Sound(sha, files, log)
    ensures var f := Staged(files, report);
      Sound(sha, f, log) && COMPATIBILITY_FILES <= f.Keys && CHECKSUM_FILE !in f && ATTESTATION_FILE !in f
  {
    hide DataText, DefaultData, FileText;
    NamesDistinct();
    assert "final_report.json" in JSON_FILES;
  }

  lemma AppendedFiles(files: Files, event: Json)
    ensures var f := Appended(files, event);
      f.Keys == files.Keys - {CHECKSUM_FILE, ATTESTATION_FILE} + {CHAIN_FILE} && CHECKSUM_FILE !in f
    ensures COMPATIBILITY_FILES <= files.Keys ==> COMPATIBILITY_FILES <= Appended(files, event).Keys
  {
    hide Print, ChainText;
    NamesDistinct();
  }

  lemma FinalEventFields(sha: Hash, log: seq<Json>, r: Request, event: Json)
    requires CreateEvent(sha, HeaderFor(log, r), r.payload) == Event(event)
    requires r.eventType == "evidence_finalized"
    ensures IsFinalEvent(event, r) && Get(event.fields, "event_hash") == event.fields["event_hash"]
  {
    hide CreateEvent, Print, AllFinite, IsNormalPayload;
    CreatedEvent(sha, HeaderFor(log, r), r.payload, event);
    assert "event_hash" in EVENT_FIELDS;
  }

  lemma SafeSnoc(log: seq<Json>, event: Json)
    ensures AllLineSafe(log + [event]) <==> AllLineSafe(log) && LineSafe(event)
  {
    hide LineSafe;
    var all := log + [event];
    assert all[|log|] == event;
    assert forall i :: 0 <= i < |log| ==> all[i] == log[i];
  }

  /** Whatever `finalize` does, the chain stays sound; when it reports success the directory verifies
      exactly if the event it appended is line-safe, and when it fails the directory does not verify. */
  lemma FinalizeOnSound(sha: Hash, files: Files, log: seq<Json>, job: string, version: string,
                        report: Option<Json>, now: string)
    requires Sound(sha, files, log)
    ensures var z := Finalize(sha, files, job, version, report, now);
      && Sound(sha, z.files, log + z.added)
      && (z.outcome.Failed? ==> !Verified(sha, z.files))
      && (z.outcome.Done? ==>
            z.added == [z.outcome.event] && AllLineSafe(log)
            && (Verified(sha, z.files) <==> LineSafe(z.outcome.event)))
  {
    hide Staged, ReadMapping, InferProject, FinalRequest, PlanAppend, Appended, Attestation, Sealed, Get, Sound,
      LineSafe, AllLineSafe, Verified, CreateEvent, IsFinalEvent, ValidChain, LastHash, SameIdentity;
    var z := Finalize(sha, files, job, version, report, now);
    var staged := Staged(files, report);
    StagedFiles(sha, files, log, report);
    assert log + [] == log;
    UnsealedFails(sha, staged);
    if InferProject(staged).Some? {
      var r := FinalRequest(staged, job, InferProject(staged).value, now);
      PlanOnSound(sha, staged, log, r);
      if PlanAppend(sha, staged, r).Done? {
        var event := PlanAppend(sha, staged, r).event;
        var all := log + [event];
        FinalRequestType(staged, job, InferProject(staged).value, now);
        FinalEventFields(sha, log, r, event);
        ChainIsLinks(sha, all);
        AppendedSound(sha, staged, log, event);
        AppendedFiles(staged, event);
        SafeSnoc(log, event);
        var appended := Appended(staged, event);
        UnsealedFails(sha, appended);
        var a := Attestation(sha, appended, version, r, Get(event.fields, "event_hash"));
        if a.Some? {
          SealedVerifies(sha, appended, all, version, r, a.value);
        }
      }
    }
  }

  lemma FinalRequestType(files: Files, job: string, project: string, now: string)
    ensures FinalRequest(files, job, project, now).eventType == "evidence_finalized"
  {
  }

  lemma ChainIsLinks(sha: Hash, log: seq<Json>)
    requires ValidChain(sha, log)
    ensures ValidLinks(sha, log) && log != []
  {
  }

  /** Without a checksum manifest nothing verifies. */
  lemma UnsealedFails(sha: Hash, files: Files)
    requires CHECKSUM_FILE !in files
    ensures !Verified(sha, files)
  {
  }

  // ---------------------------------------------------------------- later changes

  /** Rewriting one compatibility file of a verified directory keeps it verified exactly when the digest
      of that file stays the same. */
  lemma WriteBreaksVerification(sha: Hash, files: Files, name: string, data: Data)
    requires Verified(sha, files) && name in COMPATIBILITY_FILES && name in files
    ensures Verified(sha, Written(files, name, data)) <==> sha(DataText(data)) == sha(files[name])
  {
    hide DataText, AttestationAccepted, Get, ValidChain, Loads, ReadEvents;
    NamesDistinct();
    var f := Written(files, name, data);
    assert ReadMapping(f, CHECKSUM_FILE) == ReadMapping(files, CHECKSUM_FILE);
    assert ReadMapping(f, ATTESTATION_FILE) == ReadMapping(files, ATTESTATION_FILE);
    assert ReadChain(f) == ReadChain(files);
    assert f.Keys == files.Keys;
  }

  /** The attestation binds the whole chain: two verified directories that attest one final hash hold the
      same events, or two of their hashed texts collide. */
  lemma AttestationBindsChain(sha: Hash, f: Files, g: Files)
    requires Verified(sha, f) && Verified(sha, g) && CHAIN_FILE in f && CHAIN_FILE in g
    requires Get(ReadMapping(f, ATTESTATION_FILE).value, "final_event_hash")
          == Get(ReadMapping(g, ATTESTATION_FILE).value, "final_event_hash")
    ensures ReadChain(f) == ReadChain(g) || CollisionBetween(sha, ReadChain(f).value, ReadChain(g).value)
  {
    hide ReadMapping, ReadChain, Covers, CollisionBetween, ValidEvent, CompatibilityDigests, AcceptsManifestChecksum,
      AcceptsSigner;
    var a, b := ReadChain(f).value, ReadChain(g).value;
    ValidLinksAreObjects(sha, a);
    ValidLinksAreObjects(sha, b);
    assert IsEventObject(a[|a| - 1]) && IsEventObject(b[|b| - 1]) && "event_hash" in EVENT_FIELDS;
    FinalHashDeterminesChain(sha, a, b);
  }
}
