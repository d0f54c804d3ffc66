/** `EvidenceLedger.verify`: the library's verifier over a directory of evidence files. */
module EvidenceVerify {
  import opened Text
  import opened Json
  import opened JsonLines
  import opened EventChain
  import opened Evidence

  datatype VerifyError =
    | ManifestMissing | ManifestInvalid
    | FileMissing(name: string) | FileUnchecksummed(name: string) | ChecksumMismatch(name: string)
    | ChainIncomplete | BadLine(line: nat) | BadEvent(where: Located) | AttestationUnreadable
    | ContractInvalid | AttestationSchemaInvalid | AttestationAlgorithmInvalid | FinalEventInvalid
    | FinalHashMismatch | JobMismatch | ProjectMismatch | CompatibilityMissing(name: string)
    | ManifestChecksumMismatch | SignerInvalid

  // ---------------------------------------------------------------- attestation

  /** The last event; `{}` when there is none or it is not an object. */
  function FinalEvent(events: seq<Json>): map<string, Json> {
    if events != [] && events[|events| - 1].Obj? then events[|events| - 1].fields else map[]
  }

  predicate AcceptsManifestChecksum(sha: Hash, recorded: Json, digests: map<string, Json>) {
    recorded.Obj? && Get(recorded.fields, "algorithm") == Str("sha256")
    && Get(recorded.fields, "scope") == Str("compatibility_evidence_file_digests")
    && Get(recorded.fields, "value") == Str(DigestMapChecksum(sha, digests))
  }

  predicate AcceptsSigner(signer: Json) {
    signer.Obj? && Get(signer.fields, "identity") == Str("universal-project-gateway-local-development")
    && Get(signer.fields, "signature_algorithm") == Str("none")
    && Get(signer.fields, "signature") == Null
  }

  /** The recorded digests of the compatibility files, as far as they are strings. */
  function CompatibilityDigests(expected: map<string, Json>): map<string, Json> {
    map name | name in COMPATIBILITY_FILES && name in expected && expected[name].Str? :: expected[name]
  }

  /** The files whose digests the attestation binds, in the order in which they are looked for. */
  const COMPATIBILITY_ORDER: seq<string> :=
    ["task.json", "intent.json", "context_pack.json", "source_snapshot.json", "operations.json", "files_changed.json", "patch.diff",
     "validation.json", "stdout.log", "stderr.log", "environment.json", "final_report.json"]

  function MissingDigests(names: seq<string>, expected: map<string, Json>): seq<VerifyError> {
    if names == [] then []
    else (if names[0] in expected && expected[names[0]].Str? then [] else [CompatibilityMissing(names[0])])
         + MissingDigests(names[1..], expected)
  }

  lemma {:induction false} MissingListed(names: seq<string>, expected: map<string, Json>, e: VerifyError)
    ensures e in MissingDigests(names, expected) <==>
      e.CompatibilityMissing? && e.name in names && !(e.name in expected && expected[e.name].Str?)
  {
    if names != [] {
      MissingListed(names[1..], expected, e);
      assert names == [names[0]] + names[1..];
    }
  }

  lemma OrderIsComplete(name: string)
    ensures name in COMPATIBILITY_ORDER <==> name in COMPATIBILITY_FILES
  {
  }

  lemma NoneMissing(expected: map<string, Json>)
    ensures MissingDigests(COMPATIBILITY_ORDER, expected) == [] <==> CompatibilityDigests(expected).Keys == COMPATIBILITY_FILES
  {
    hide COMPATIBILITY_FILES, COMPATIBILITY_ORDER, MissingDigests;
    var missing := MissingDigests(COMPATIBILITY_ORDER, expected);
    if missing != [] {
      MissingListed(COMPATIBILITY_ORDER, expected, missing[0]);
      OrderIsComplete(missing[0].name);
    } else {
      forall name | name in COMPATIBILITY_FILES ensures name in CompatibilityDigests(expected) {
        OrderIsComplete(name);
        MissingListed(COMPATIBILITY_ORDER, expected, CompatibilityMissing(name));
      }
    }
  }

  function AttestationErrors(sha: Hash, a: map<string, Json>, events: seq<Json>, expected: map<string, Json>)
    : seq<VerifyError>
  {
    var final := FinalEvent(events);
    var digests := CompatibilityDigests(expected);
    var e1 := Add([], Get(a, "contract_version") != Null && Get(a, "contract_version") != Str("upg.evidence/v1"),
                  ContractInvalid);
    var e2 := Add(e1, Get(a, "evidence_schema_version") != Str("2.0"), AttestationSchemaInvalid);
    var e3 := Add(e2, Get(a, "hash_algorithm") != Str("sha256"), AttestationAlgorithmInvalid);
    var e4 := Add(e3, Get(final, "event_type") != Str("evidence_finalized"), FinalEventInvalid);
    var e5 := Add(e4, Get(a, "final_event_hash") != Get(final, "event_hash"), FinalHashMismatch);
    var e6 := Add(e5, Get(a, "job_id") != Get(final, "job_id"), JobMismatch);
    var e7 := Add(e6, Get(a, "project_id") != Get(final, "project_id"), ProjectMismatch);
    var e8 := e7 + MissingDigests(COMPATIBILITY_ORDER, expected);
    var e9 := Add(e8, !AcceptsManifestChecksum(sha, Get(a, "manifest_checksum"), digests), ManifestChecksumMismatch);
    Add(e9, !AcceptsSigner(Get(a, "signer")), SignerInvalid)
  }

  predicate AttestationAccepted(sha: Hash, a: map<string, Json>, events: seq<Json>, expected: map<string, Json>) {
    var final := FinalEvent(events);
    && Get(a, "contract_version") in [Null, Str("upg.evidence/v1")]
    && Get(a, "evidence_schema_version") == Str("2.0") && Get(a, "hash_algorithm") == Str("sha256")
    && Get(final, "event_type") == Str("evidence_finalized")
    && Get(a, "final_event_hash") == Get(final, "event_hash")
    && Get(a, "job_id") == Get(final, "job_id") && Get(a, "project_id") == Get(final, "project_id")
    && CompatibilityDigests(expected).Keys == COMPATIBILITY_FILES
    && AcceptsManifestChecksum(sha, Get(a, "manifest_checksum"), CompatibilityDigests(expected))
    && AcceptsSigner(Get(a, "signer"))
  }

  lemma AttestationErrorsEmpty(sha: Hash, a: map<string, Json>, events: seq<Json>, expected: map<string, Json>)
    ensures AttestationErrors(sha, a, events, expected) == [] <==> AttestationAccepted(sha, a, events, expected)
  {
    hide Get, FinalEvent, CompatibilityDigests, AcceptsManifestChecksum, AcceptsSigner, MissingDigests, COMPATIBILITY_ORDER,
      COMPATIBILITY_FILES;
    NoneMissing(expected);
  }

  /** What can stand against an attestation: one condition for each error. */
  datatype Doubts = Doubts(contract: bool, schema: bool, algorithm: bool, event: bool, hash: bool, job: bool, project: bool,
                           missing: set<string>, checksum: bool, signer: bool)

  predicate Picked(d: Doubts, e: VerifyError) {
    match e
    case ContractInvalid => d.contract
    case AttestationSchemaInvalid => d.schema
    case AttestationAlgorithmInvalid => d.algorithm
    case FinalEventInvalid => d.event
    case FinalHashMismatch => d.hash
    case JobMismatch => d.job
    case ProjectMismatch => d.project
    case CompatibilityMissing(name) => name in d.missing
    case ManifestChecksumMismatch => d.checksum
    case SignerInvalid => d.signer
    case _ => false
  }

  /** The compatibility files without a digest. */
  function Undigested(expected: map<string, Json>): set<string> {
    set name | name in COMPATIBILITY_FILES && !(name in expected && expected[name].Str?)
  }

  /** The checksum over the digests of the compatibility files is missing, of another kind, or another one. */
  predicate BadChecksum(sha: Hash, recorded: Json, expected: map<string, Json>) {
    var digests: map<string, Json> := map name | name in COMPATIBILITY_FILES && name in expected && expected[name].Str? :: expected[name];
    var text := Print(Obj(map["algorithm" := Str("sha256"), "files" := Obj(digests)]), Compact, 0);
    !recorded.Obj?
    || !("algorithm" in recorded.fields && recorded.fields["algorithm"] == Str("sha256"))
    || !("scope" in recorded.fields && recorded.fields["scope"] == Str("compatibility_evidence_file_digests"))
    || !("value" in recorded.fields && recorded.fields["value"] == Str(sha(text)))
  }

  /** The signer is not the one that stands for having none. */
  predicate BadSigner(signer: Json) {
    !signer.Obj?
    || !("identity" in signer.fields && signer.fields["identity"] == Str("universal-project-gateway-local-development"))
    || !("signature_algorithm" in signer.fields && signer.fields["signature_algorithm"] == Str("none"))
    || ("signature" in signer.fields && signer.fields["signature"] != Null)
  }

  lemma ChecksumRefused(sha: Hash, recorded: Json, expected: map<string, Json>)
    ensures BadChecksum(sha, recorded, expected) <==> !AcceptsManifestChecksum(sha, recorded, CompatibilityDigests(expected))
  {
    hide COMPATIBILITY_FILES, Print;
    var digests: map<string, Json> := map name | name in COMPATIBILITY_FILES && name in expected && expected[name].Str? :: expected[name];
    assert digests == CompatibilityDigests(expected);
  }

  lemma SignerRefused(signer: Json)
    ensures BadSigner(signer) <==> !AcceptsSigner(signer)
  {
  }

  /** What stands against an attestation, given the last event and the digests that the manifest lists. */
  function DoubtsAbout(sha: Hash, a: map<string, Json>, events: seq<Json>, expected: map<string, Json>): Doubts {
    var final := FinalEvent(events);
    Doubts("contract_version" in a && a["contract_version"] != Null && a["contract_version"] != Str("upg.evidence/v1"),
           Get(a, "evidence_schema_version") != Str("2.0"), Get(a, "hash_algorithm") != Str("sha256"),
           Get(final, "event_type") != Str("evidence_finalized"), Get(a, "final_event_hash") != Get(final, "event_hash"),
           Get(a, "job_id") != Get(final, "job_id"), Get(a, "project_id") != Get(final, "project_id"), Undigested(expected),
           BadChecksum(sha, Get(a, "manifest_checksum"), expected), BadSigner(Get(a, "signer")))
  }

  predicate AttestationFault(sha: Hash, a: map<string, Json>, events: seq<Json>, expected: map<string, Json>, e: VerifyError) {
    Picked(DoubtsAbout(sha, a, events, expected), e)
  }

  /** The errors whose conditions hold, in the order of the checks. */
  function PickedList(d: Doubts, missing: seq<VerifyError>): seq<VerifyError> {
    var headed := Add(Add(Add(Add([], d.contract, ContractInvalid), d.schema, AttestationSchemaInvalid),
                          d.algorithm, AttestationAlgorithmInvalid), d.event, FinalEventInvalid);
    PickedLater(headed, d, missing)
  }

  function PickedLater(headed: seq<VerifyError>, d: Doubts, missing: seq<VerifyError>): seq<VerifyError> {
    var bound := Add(Add(Add(headed, d.hash, FinalHashMismatch), d.job, JobMismatch), d.project, ProjectMismatch) + missing;
    Add(Add(bound, d.checksum, ManifestChecksumMismatch), d.signer, SignerInvalid)
  }

  lemma LaterArePicked(headed: seq<VerifyError>, d: Doubts, missing: seq<VerifyError>, e: VerifyError)
    ensures e in PickedLater(headed, d, missing) <==>
      || e in headed || (d.hash && e == FinalHashMismatch) || (d.job && e == JobMismatch) || (d.project && e == ProjectMismatch)
      || e in missing || (d.checksum && e == ManifestChecksumMismatch) || (d.signer && e == SignerInvalid)
  {
    hide Add;
    var bound := Add(Add(Add(headed, d.hash, FinalHashMismatch), d.job, JobMismatch), d.project, ProjectMismatch) + missing;
    AddIn(headed, d.hash, FinalHashMismatch, e);
    AddIn(Add(headed, d.hash, FinalHashMismatch), d.job, JobMismatch, e);
    AddIn(Add(Add(headed, d.hash, FinalHashMismatch), d.job, JobMismatch), d.project, ProjectMismatch, e);
    AddIn(bound, d.checksum, ManifestChecksumMismatch, e);
    AddIn(Add(bound, d.checksum, ManifestChecksumMismatch), d.signer, SignerInvalid, e);
  }

  lemma ListIsPicked(d: Doubts, missing: seq<VerifyError>, e: VerifyError)
    requires e in missing <==> e.CompatibilityMissing? && e.name in d.missing
    ensures e in PickedList(d, missing) <==> Picked(d, e)
  {
    hide Add, PickedLater;
    var headed := Add(Add(Add(Add([], d.contract, ContractInvalid), d.schema, AttestationSchemaInvalid),
                          d.algorithm, AttestationAlgorithmInvalid), d.event, FinalEventInvalid);
    FourErrors([], d.contract, ContractInvalid, d.schema, AttestationSchemaInvalid, d.algorithm, AttestationAlgorithmInvalid,
               d.event, FinalEventInvalid, e);
    LaterArePicked(headed, d, missing, e);
  }

  lemma UndigestedListed(expected: map<string, Json>, e: VerifyError)
    ensures e in MissingDigests(COMPATIBILITY_ORDER, expected) <==> e.CompatibilityMissing? && e.name in Undigested(expected)
  {
    hide COMPATIBILITY_FILES, COMPATIBILITY_ORDER, MissingDigests;
    MissingListed(COMPATIBILITY_ORDER, expected, e);
    if e.CompatibilityMissing? { OrderIsComplete(e.name); }
  }

  lemma AttestationErrorsListed(sha: Hash, a: map<string, Json>, events: seq<Json>, expected: map<string, Json>)
    ensures AttestationErrors(sha, a, events, expected) ==
      PickedList(DoubtsAbout(sha, a, events, expected), MissingDigests(COMPATIBILITY_ORDER, expected))
  {
    hide Add, FinalEvent, CompatibilityDigests, AcceptsManifestChecksum, AcceptsSigner, COMPATIBILITY_FILES, Undigested,
      BadChecksum, BadSigner, MissingDigests, COMPATIBILITY_ORDER;
    ChecksumRefused(sha, Get(a, "manifest_checksum"), expected);
    SignerRefused(Get(a, "signer"));
  }

  /** Exactly what stands against an attestation is reported. */
  lemma AttestationErrorsStand(sha: Hash, a: map<string, Json>, events: seq<Json>, expected: map<string, Json>, e: VerifyError)
    ensures e in AttestationErrors(sha, a, events, expected) <==> AttestationFault(sha, a, events, expected, e)
  {
    hide AttestationErrors, PickedList, Picked, MissingDigests, COMPATIBILITY_ORDER, Undigested, BadChecksum, BadSigner;
    AttestationErrorsListed(sha, a, events, expected);
    UndigestedListed(expected, e);
    ListIsPicked(DoubtsAbout(sha, a, events, expected), MissingDigests(COMPATIBILITY_ORDER, expected), e);
  }

  // ---------------------------------------------------------------- the verdict

  /** Every file but the manifest is listed, and nothing else, each with its digest. */
  predicate Covers(sha: Hash, files: Files, expected: map<string, Json>) {
    expected.Keys == files.Keys - {CHECKSUM_FILE} &&
    forall name :: name in expected ==> expected[name] == Str(sha(files[name]))
  }

  /** Neither chain nor attestation, or both and both good. */
  predicate ChainAccepted(sha: Hash, files: Files, expected: map<string, Json>) {
    (CHAIN_FILE in files <==> ATTESTATION_FILE in files) &&
    (CHAIN_FILE in files ==>
      ReadChain(files).Some? && ValidChain(sha, ReadChain(files).value) &&
      ReadMapping(files, ATTESTATION_FILE).Some? &&
      AttestationAccepted(sha, ReadMapping(files, ATTESTATION_FILE).value, ReadChain(files).value, expected))
  }

  predicate ManifestReadable(files: Files) {
    ReadMapping(files, CHECKSUM_FILE).Some? &&
    var m := ReadMapping(files, CHECKSUM_FILE).value;
    Get(m, "algorithm") == Str("sha256") && Get(m, "files").Obj?
  }

  function Expected(files: Files): map<string, Json>
    requires ManifestReadable(files)
  {
    Get(ReadMapping(files, CHECKSUM_FILE).value, "files").fields
  }

  predicate Verified(sha: Hash, files: Files) {
    ManifestReadable(files) && Covers(sha, files, Expected(files)) && ChainAccepted(sha, files, Expected(files))
  }

  // ---------------------------------------------------------------- the loops

  function MissingErrors(names: seq<string>, n: nat): seq<VerifyError>
    requires n <= |names|
  {
    if n == 0 then [] else MissingErrors(names, n - 1) + [FileMissing(names[n - 1])]
  }

  function UnexpectedErrors(names: seq<string>, n: nat): seq<VerifyError>
    requires n <= |names|
  {
    if n == 0 then [] else UnexpectedErrors(names, n - 1) + [FileUnchecksummed(names[n - 1])]
  }

  predicate Mismatched(sha: Hash, files: Files, expected: map<string, Json>, name: string) {
    name in files && name != CHECKSUM_FILE && name in expected && expected[name] != Str(sha(files[name]))
  }

  function MismatchErrors(sha: Hash, files: Files, expected: map<string, Json>, names: seq<string>, n: nat)
    : seq<VerifyError>
    requires n <= |names|
  {
    if n == 0 then [] else
      Add(MismatchErrors(sha, files, expected, names, n - 1),
          Mismatched(sha, files, expected, names[n - 1]), ChecksumMismatch(names[n - 1]))
  }

  /** The missing files, then the unlisted ones, then the changed ones, each group in name order. */
  function CoverErrors(sha: Hash, files: Files, expected: map<string, Json>): seq<VerifyError> {
    var missing := SortedKeys(expected.Keys - (files.Keys - {CHECKSUM_FILE}));
    var unexpected := SortedKeys(files.Keys - {CHECKSUM_FILE} - expected.Keys);
    var listed := SortedKeys(expected.Keys);
    MissingErrors(missing, |missing|) + UnexpectedErrors(unexpected, |unexpected|)
      + MismatchErrors(sha, files, expected, listed, |listed|)
  }

  lemma {:induction false} MismatchErrorsEmpty(sha: Hash, files: Files, expected: map<string, Json>, names: seq<string>, n: nat)
    requires n <= |names|
    ensures MismatchErrors(sha, files, expected, names, n) == [] <==>
            forall i :: 0 <= i < n ==> !Mismatched(sha, files, expected, names[i])
  {
    hide Mismatched;
    if n > 0 { MismatchErrorsEmpty(sha, files, expected, names, n - 1); }
  }

  lemma CoverErrorsEmpty(sha: Hash, files: Files, expected: map<string, Json>)
    ensures CoverErrors(sha, files, expected) == [] <==> Covers(sha, files, expected)
  {
    var listed := SortedKeys(expected.Keys);
    MismatchErrorsEmpty(sha, files, expected, listed, |listed|);
    SameKeys(expected.Keys, files.Keys - {CHECKSUM_FILE});
    if expected.Keys == files.Keys - {CHECKSUM_FILE} {
      assert forall name :: name in expected ==> name in listed;
      assert (forall i :: 0 <= i < |listed| ==> !Mismatched(sha, files, expected, listed[i])) <==>
             (forall name :: name in listed ==> !Mismatched(sha, files, expected, name));
    }
  }

  /** What there is to report about a directory and the manifest's list. */
  predicate Misfit(sha: Hash, files: Files, expected: map<string, Json>, e: VerifyError) {
    match e
    case FileMissing(name) => name in expected && name !in files.Keys - {CHECKSUM_FILE}
    case FileUnchecksummed(name) => name in files.Keys - {CHECKSUM_FILE} && name !in expected
    case ChecksumMismatch(name) => Mismatched(sha, files, expected, name)
    case _ => false
  }

  /** Exactly the misfits are reported. */
  lemma CoverErrorsNamed(sha: Hash, files: Files, expected: map<string, Json>, e: VerifyError)
    ensures e in CoverErrors(sha, files, expected) <==> Misfit(sha, files, expected, e)
  {
    hide Mismatched, CoverErrors;
    ThreeGroups(sha, files, expected, e);
    MissingIn(expected.Keys - (files.Keys - {CHECKSUM_FILE}), e);
    UnexpectedIn(files.Keys - {CHECKSUM_FILE} - expected.Keys, e);
    MismatchesIn(sha, files, expected, e);
  }

  lemma ThreeGroups(sha: Hash, files: Files, expected: map<string, Json>, e: VerifyError)
    ensures var missing := SortedKeys(expected.Keys - (files.Keys - {CHECKSUM_FILE}));
      var unexpected := SortedKeys(files.Keys - {CHECKSUM_FILE} - expected.Keys);
      var listed := SortedKeys(expected.Keys);
      e in CoverErrors(sha, files, expected) <==>
        e in MissingErrors(missing, |missing|) || e in UnexpectedErrors(unexpected, |unexpected|)
        || e in MismatchErrors(sha, files, expected, listed, |listed|)
  {
    hide MissingErrors, UnexpectedErrors, MismatchErrors, SortedKeys;
  }

  lemma MissingIn(names: set<string>, e: VerifyError)
    ensures e in MissingErrors(SortedKeys(names), |SortedKeys(names)|) <==> e.FileMissing? && e.name in names
  {
    hide MissingErrors;
    MissingNamed(SortedKeys(names), |SortedKeys(names)|, e);
    assert SortedKeys(names)[..|SortedKeys(names)|] == SortedKeys(names);
  }

  lemma UnexpectedIn(names: set<string>, e: VerifyError)
    ensures e in UnexpectedErrors(SortedKeys(names), |SortedKeys(names)|) <==> e.FileUnchecksummed? && e.name in names
  {
    hide UnexpectedErrors;
    UnexpectedNamed(SortedKeys(names), |SortedKeys(names)|, e);
    assert SortedKeys(names)[..|SortedKeys(names)|] == SortedKeys(names);
  }

  lemma MismatchesIn(sha: Hash, files: Files, expected: map<string, Json>, e: VerifyError)
    ensures var listed := SortedKeys(expected.Keys);
      e in MismatchErrors(sha, files, expected, listed, |listed|) <==>
        e.ChecksumMismatch? && Mismatched(sha, files, expected, e.name)
  {
    hide MismatchErrors;
    var listed := SortedKeys(expected.Keys);
    MismatchesNamed(sha, files, expected, listed, |listed|, e);
    assert listed[..|listed|] == listed;
  }

  lemma {:induction false} MissingNamed(names: seq<string>, n: nat, e: VerifyError)
    requires n <= |names|
    ensures e in MissingErrors(names, n) <==> e.FileMissing? && e.name in names[..n]
  {
    if n > 0 { MissingNamed(names, n - 1, e); }
  }

  lemma {:induction false} UnexpectedNamed(names: seq<string>, n: nat, e: VerifyError)
    requires n <= |names|
    ensures e in UnexpectedErrors(names, n) <==> e.FileUnchecksummed? && e.name in names[..n]
  {
    if n > 0 { UnexpectedNamed(names, n - 1, e); }
  }

  lemma {:induction false} MismatchesNamed(sha: Hash, files: Files, expected: map<string, Json>, names: seq<string>,
                                           n: nat, e: VerifyError)
    requires n <= |names|
    ensures e in MismatchErrors(sha, files, expected, names, n) <==>
            e.ChecksumMismatch? && e.name in names[..n] && Mismatched(sha, files, expected, e.name)
  {
    hide Mismatched;
    if n > 0 { MismatchesNamed(sha, files, expected, names, n - 1, e); }
  }

  lemma SameKeys(a: set<string>, b: set<string>)
    ensures SortedKeys(a - b) == SortedKeys(b - a) == [] <==> a == b
  {
    assert a - b == {} && b - a == {} ==> a == b;
    assert |SortedKeys(a - b)| == |a - b| && |SortedKeys(b - a)| == |b - a|;
  }

  method ReportMissing(names: seq<string>) returns (errors: seq<VerifyError>)
    ensures errors == MissingErrors(names, |names|)
  {
    errors := [];
    for i := 0 to |names|
      invariant errors == MissingErrors(names, i)
    {
      errors := errors + [FileMissing(names[i])];
    }
  }

  method ReportUnexpected(names: seq<string>) returns (errors: seq<VerifyError>)
    ensures errors == UnexpectedErrors(names, |names|)
  {
    errors := [];
    for i := 0 to |names|
      invariant errors == UnexpectedErrors(names, i)
    {
      errors := errors + [FileUnchecksummed(names[i])];
    }
  }

  method ReportMismatches(sha: Hash, files: Files, expected: map<string, Json>, names: seq<string>)
    returns (errors: seq<VerifyError>)
    ensures errors == MismatchErrors(sha, files, expected, names, |names|)
  {
    errors := [];
    for i := 0 to |names|
      invariant errors == MismatchErrors(sha, files, expected, names, i)
    {
      if Mismatched(sha, files, expected, names[i]) {
        errors := errors + [ChecksumMismatch(names[i])];
      }
    }
  }

  method CheckFiles(sha: Hash, files: Files, expected: map<string, Json>) returns (errors: seq<VerifyError>)
    ensures errors == CoverErrors(sha, files, expected)
    ensures errors == [] <==> Covers(sha, files, expected)
    ensures forall e :: e in errors <==> Misfit(sha, files, expected, e)
  {
    hide Covers, Misfit;
    CoverErrorsEmpty(sha, files, expected);
    forall e ensures e in CoverErrors(sha, files, expected) <==> Misfit(sha, files, expected, e) {
      CoverErrorsNamed(sha, files, expected, e);
    }
    var actual := files.Keys - {CHECKSUM_FILE};
    var missing := ReportMissing(SortedKeys(expected.Keys - actual));
    var unexpected := ReportUnexpected(SortedKeys(actual - expected.Keys));
    var mismatched := ReportMismatches(sha, files, expected, SortedKeys(expected.Keys));
    errors := missing + unexpected + mismatched;
  }

  predicate IsBadLine(lines: seq<string>, n: nat, e: VerifyError)
    requires n <= |lines|
  {
    e.BadLine? && 1 <= e.line <= n && Loads(lines[e.line - 1]).None?
  }

  lemma LenientReads(text: string, events: seq<Json>, errors: seq<VerifyError>)
    requires var lines := SplitLines(text);
      && |events| == |lines| && (forall j :: 0 <= j < |lines| ==> events[j] == Loads(lines[j]).GetOr(Null))
      && (forall e :: e in errors <==> IsBadLine(lines, |lines|, e))
    ensures errors == [] <==> ReadEvents(text).Some?
    ensures errors == [] ==> Some(events) == ReadEvents(text)
  {
    hide Loads, SplitLines;
    var lines := SplitLines(text);
    assert forall j :: 0 <= j < |lines| ==> ParseLines(lines)[j] == Loads(lines[j]);
    if errors == [] {
      forall j | 0 <= j < |lines| ensures Loads(lines[j]).Some? { assert !IsBadLine(lines, |lines|, BadLine(j + 1)); }
      assert events == Values(ParseLines(lines));
    } else {
      assert IsBadLine(lines, |lines|, errors[0]);
    }
  }

  /** The chain as `verify` reads it: a line that is not JSON counts as a null event and is reported. */
  method ReadLenient(text: string) returns (events: seq<Json>, errors: seq<VerifyError>)
    ensures errors == [] <==> ReadEvents(text).Some?
    ensures errors == [] ==> Some(events) == ReadEvents(text)
    ensures |events| == |SplitLines(text)|
    ensures forall i :: 0 <= i < |events| ==> events[i] == Loads(SplitLines(text)[i]).GetOr(Null)
    ensures forall e :: e in errors <==> IsBadLine(SplitLines(text), |events|, e)
  {
    hide Loads, SplitLines, ReadEvents;
    var lines := SplitLines(text);
    events, errors := [], [];
    for i := 0 to |lines|
      invariant |events| == i
      invariant forall j :: 0 <= j < i ==> events[j] == Loads(lines[j]).GetOr(Null)
      invariant forall e :: e in errors <==> IsBadLine(lines, i, e)
    {
      var parsed := Loads(lines[i]);
      if parsed.None? {
        errors := errors + [BadLine(i + 1)];
      }
      events := events + [parsed.GetOr(Null)];
    }
    LenientReads(text, events, errors);
  }

  function WrapEvents(errors: seq<Located>): (r: seq<VerifyError>)
    ensures |r| == |errors|
  {
    seq(|errors|, i requires 0 <= i < |errors| => BadEvent(errors[i]))
  }

  lemma Wrapped(errors: seq<Located>, e: VerifyError)
    ensures e in WrapEvents(errors) <==> e.BadEvent? && e.where in errors
  {
    if e.BadEvent? && e.where in errors {
      var k :| 0 <= k < |errors| && errors[k] == e.where;
      assert WrapEvents(errors)[k] == e;
    }
  }

  /** The chain as it is read for verification: a line that is no JSON counts as null. */
  function Lenient(text: string): (r: seq<Json>)
    ensures |r| == |SplitLines(text)|
  {
    Each((line: string) => Loads(line).GetOr(Null), SplitLines(text))
  }

  /** What is wrong with a directory that has a chain and an attestation. */
  predicate ChainFault(sha: Hash, files: Files, expected: map<string, Json>, e: VerifyError)
    requires CHAIN_FILE in files
  {
    var events := Lenient(files[CHAIN_FILE]);
    match e
    case BadLine(line) => IsBadLine(SplitLines(files[CHAIN_FILE]), |events|, e)
    case BadEvent(l) => IsError(sha, events, |events|, l) || (events == [] && l == Located(ChainEmpty, 0))
    case AttestationUnreadable => ReadMapping(files, ATTESTATION_FILE).None?
    case _ => AttestationFault(sha, ReadMapping(files, ATTESTATION_FILE).GetOr(map[]), events, expected, e)
  }

  /** What is wrong with a directory: a manifest that is not there or cannot be read, and then nothing else; or
      files that do not fit it, half a chain, or what is wrong with the chain and its attestation. */
  predicate Fault(sha: Hash, files: Files, e: VerifyError) {
    if CHECKSUM_FILE !in files then e == ManifestMissing
    else if !IsManifest(Loads(files[CHECKSUM_FILE])) then e == ManifestInvalid
    else
      var expected := Loads(files[CHECKSUM_FILE]).value.fields["files"].fields;
      if Misfit(sha, files, expected, e) then true
      else if (CHAIN_FILE in files) != (ATTESTATION_FILE in files) then e == ChainIncomplete
      else CHAIN_FILE in files && ChainFault(sha, files, expected, e)
  }

  /** An object that names the algorithm and holds an object of files. */
  predicate IsManifest(parsed: Option<Json>) {
    parsed.Some? && parsed.value.Obj? && "algorithm" in parsed.value.fields && parsed.value.fields["algorithm"] == Str("sha256")
    && "files" in parsed.value.fields && parsed.value.fields["files"].Obj?
  }

  lemma ManifestIsReadable(files: Files)
    ensures ManifestReadable(files) <==> CHECKSUM_FILE in files && IsManifest(Loads(files[CHECKSUM_FILE]))
    ensures ManifestReadable(files) ==> Expected(files) == Loads(files[CHECKSUM_FILE]).value.fields["files"].fields
  {
    hide Loads;
  }

  lemma AttestationApart(sha: Hash, a: map<string, Json>, events: seq<Json>, expected: map<string, Json>, e: VerifyError)
    requires AttestationFault(sha, a, events, expected, e)
    ensures !e.BadLine? && !e.BadEvent? && !e.AttestationUnreadable? && !e.ChainIncomplete?
  {
    hide DoubtsAbout;
  }

  lemma MisfitsApart(sha: Hash, files: Files, expected: map<string, Json>, e: VerifyError)
    requires CHAIN_FILE in files
    ensures Misfit(sha, files, expected, e) ==> e != ChainIncomplete && !ChainFault(sha, files, expected, e)
  {
    hide IsError, Mismatched, Loads, DoubtsAbout, ReadMapping;
  }

  /** `verify` reports exactly what is wrong, and nothing exactly when the directory is sound. */
  method Verify(sha: Hash, files: Files) returns (errors: seq<VerifyError>)
    ensures errors == [] <==> Verified(sha, files)
    ensures forall e :: e in errors <==> Fault(sha, files, e)
  {
    hide Get, AttestationErrors, AttestationAccepted, ValidChain, Covers, CoverErrors, Loads, Misfit, AttestationFault, IsError,
      WrapEvents, ChainErrors;
    var manifest := ReadMapping(files, CHECKSUM_FILE);
    ManifestIsReadable(files);
    if manifest.None? {
      return [if CHECKSUM_FILE in files then ManifestInvalid else ManifestMissing];
    }
    if Get(manifest.value, "algorithm") != Str("sha256") || !Get(manifest.value, "files").Obj? {
      return [ManifestInvalid];
    }
    var expected := Get(manifest.value, "files").fields;
    errors := CheckFiles(sha, files, expected);
    CoverErrorsEmpty(sha, files, expected);
    if (CHAIN_FILE in files) != (ATTESTATION_FILE in files) {
      errors := errors + [ChainIncomplete];
    } else if CHAIN_FILE in files {
      var events, unreadable := ReadLenient(files[CHAIN_FILE]);
      assert events == Lenient(files[CHAIN_FILE]);
      var broken := VerifyEventRecords(sha, events);
      errors := errors + unreadable + WrapEvents(broken);
      var attestation := ReadMapping(files, ATTESTATION_FILE);
      if attestation.None? {
        errors := errors + [AttestationUnreadable];
      }
      var a := attestation.GetOr(map[]);
      errors := errors + AttestationErrors(sha, a, events, expected);
      AttestationErrorsEmpty(sha, a, events, expected);
      forall e ensures e in errors <==> Misfit(sha, files, expected, e) || ChainFault(sha, files, expected, e) {
        Wrapped(broken, e);
        AttestationErrorsStand(sha, a, events, expected, e);
        if AttestationFault(sha, a, events, expected, e) { AttestationApart(sha, a, events, expected, e); }
      }
    }
  }
}
