/** What stands in the files of an evidence directory, file by file, stated on their texts. */
module EvidenceContents {
  import opened Text
  import opened Json
  import opened JsonLines
  import opened EventChain
  import opened ChainProofs
  import opened Evidence
  import opened EvidenceProofs

  // ---------------------------------------------------------------- the compatibility files

  /** What `finalize` puts where no file is. */
  function DefaultText(name: string): string {
    if name == "patch.diff" || name == "stdout.log" || name == "stderr.log" then ""
    else if name == "operations.json" || name == "files_changed.json" then "[]\n"
    else if name == "final_report.json" then
      Print(Obj(map["status" := Str("not_run"), "success" := Bool(false)]), Indented, 0) + "\n"
    else if name == "validation.json" then
      Print(Obj(map["overall_status" := Str("not_run"), "checks" := Arr([]), "summary" := Obj(NO_COUNTS)]), Indented, 0) + "\n"
    else "{}\n"
  }

  const NO_COUNTS: map<string, Json> := map["passed" := Int(0), "failed" := Int(0), "skipped" := Int(0), "not_run" := Int(0)]

  /** The text a written document or log becomes. */
  predicate WrittenAs(data: Data, text: string) {
    match data
    case Document(v) => text == Print(v, Indented, 0) + "\n"
    case Log(t) => (text == t || text == t + "\n") && (text == t <==> t == "" || t[|t| - 1] == '\n')
  }

  /** `finalize` keeps a file that is there, puts its report in the place of the final report, and a default
      where no file is. */
  predicate Kept(was: Files, report: Option<Json>, name: string, text: string) {
    if name == "final_report.json" && report.Some? then text == Print(report.value, Indented, 0) + "\n"
    else if name in was then text == was[name]
    else text == DefaultText(name)
  }

  predicate AllKept(was: Files, report: Option<Json>, files: Files) {
    forall name :: name in COMPATIBILITY_FILES ==> name in files && Kept(was, report, name, files[name])
  }

  /** No compatibility file changed. */
  predicate SameDocuments(was: Files, files: Files) {
    forall name :: name in COMPATIBILITY_FILES ==>
      (name in files <==> name in was) && (name in was ==> files[name] == was[name])
  }

  lemma WritesText(data: Data)
    ensures WrittenAs(data, DataText(data))
  {
    hide Print;
    if data.Log? { assert |data.t + "\n"| != |data.t|; }
  }

  lemma DefaultsAreTexts(name: string)
    requires name in COMPATIBILITY_FILES
    ensures DataText(DefaultData(name)) == DefaultText(name)
  {
    hide COMPATIBILITY_FILES;
    EmptyTexts();
    if name in TEXT_FILES { TextNames(name); } else { OtherNames(name); }
    hide TEXT_FILES, Print;
  }

  lemma EmptyTexts()
    ensures Print(Obj(map[]), Indented, 0) + "\n" == "{}\n" && Print(Arr([]), Indented, 0) + "\n" == "[]\n"
  {
  }

  lemma TextNames(name: string)
    requires name in TEXT_FILES
    ensures name == "patch.diff" || name == "stdout.log" || name == "stderr.log"
  {
  }

  lemma OtherNames(name: string)
    requires name !in TEXT_FILES
    ensures name != "patch.diff" && name != "stdout.log" && name != "stderr.log"
  {
  }

  lemma StagedKeeps(files: Files, report: Option<Json>)
    ensures AllKept(files, report, Staged(files, report))
  {
    hide DataText, DefaultData, DefaultText, COMPATIBILITY_FILES, Print;
    NamesDistinct();
    ReportIsDocument();
    forall name | name in COMPATIBILITY_FILES
      ensures name in Staged(files, report) && Kept(files, report, name, Staged(files, report)[name])
    {
      DefaultsAreTexts(name);
      if report.Some? { WritesText(Document(report.value)); }
    }
  }

  lemma ReportIsDocument()
    ensures "final_report.json" in COMPATIBILITY_FILES
  {
  }

  lemma AppendKeepsDocuments(files: Files, event: Json)
    ensures SameDocuments(files, Appended(files, event))
  {
    hide Print, ChainText, COMPATIBILITY_FILES;
    NamesDistinct();
  }

  lemma SealKeepsDocuments(sha: Hash, files: Files, attestation: Json)
    ensures SameDocuments(files, Sealed(sha, files, attestation))
  {
    hide DocumentText, Manifest, COMPATIBILITY_FILES;
    NamesDistinct();
  }

  /** Whatever the outcome of `finalize`, it keeps what was written. */
  lemma FinalizeKeeps(sha: Hash, files: Files, job: string, version: string, report: Option<Json>, now: string)
    ensures AllKept(files, report, Finalize(sha, files, job, version, report, now).files)
  {
    hide Staged, ReadMapping, InferProject, FinalRequest, PlanAppend, Appended, Attestation, Sealed, Get, Kept, COMPATIBILITY_FILES;
    var staged := Staged(files, report);
    StagedKeeps(files, report);
    if InferProject(staged).Some? {
      var r := FinalRequest(staged, job, InferProject(staged).value, now);
      var plan := PlanAppend(sha, staged, r);
      if plan.Done? {
        var appended := Appended(staged, plan.event);
        AppendKeepsDocuments(staged, plan.event);
        var a := Attestation(sha, appended, version, r, Get(plan.event.fields, "event_hash"));
        if a.Some? { SealKeepsDocuments(sha, appended, a.value); }
      }
    }
  }

  // ---------------------------------------------------------------- documents

  /** The object in a file. */
  function Doc(files: Files, name: string): Option<map<string, Json>> {
    if name in files && Loads(files[name]).Some? && Loads(files[name]).value.Obj? then Some(Loads(files[name]).value.fields) else None
  }

  /** A field of a mapping, or what stands for it. */
  function Field(m: map<string, Json>, key: string, default: Json): Json { if key in m then m[key] else default }

  /** A field that is a mapping itself, or else an empty one. */
  function Part(m: map<string, Json>, key: string): map<string, Json> {
    if key in m && m[key].Obj? then m[key].fields else map[]
  }

  lemma DocIsMapping(files: Files, name: string)
    ensures Doc(files, name) == ReadMapping(files, name)
  {
    hide Loads;
  }

  /** A mapping names a project by a text that is not empty. */
  predicate Names(m: map<string, Json>, project: string) { Field(m, "project_id", Null) == Str(project) && project != "" }

  ghost predicate NamesNone(m: map<string, Json>) { forall project :: !Names(m, project) }

  /** The project of a finalized job: named by the report, else by the task, else by the intent, else by the
      first event, and else unknown. */
  ghost predicate ProjectOf(files: Files, first: Option<Json>, project: string) {
    var report, task, intent := Doc(files, "final_report.json"), Doc(files, "task.json"), Doc(files, "intent.json");
    && report.Some? && task.Some? && intent.Some? &&
    var event := if first.Some? && first.value.Obj? then first.value.fields else map[];
    || Names(report.value, project)
    || (NamesNone(report.value) && Names(task.value, project))
    || (NamesNone(report.value) && NamesNone(task.value) && Names(intent.value, project))
    || (NamesNone(report.value) && NamesNone(task.value) && NamesNone(intent.value) && Names(event, project))
    || (NamesNone(report.value) && NamesNone(task.value) && NamesNone(intent.value) && NamesNone(event)
        && project == "unknown-project")
  }

  lemma ProjectInMeans(m: map<string, Json>)
    ensures ProjectIn(m).Some? ==> Names(m, ProjectIn(m).value)
    ensures ProjectIn(m).None? ==> NamesNone(m)
  {
  }

  lemma InferredProject(files: Files)
    requires InferProject(files).Some? && ReadChain(files).Some?
    ensures ProjectOf(files, if ReadChain(files).value != [] then Some(ReadChain(files).value[0]) else None, InferProject(files).value)
  {
    hide ReadMapping, ReadChain, ProjectIn, Names, NamesNone, Doc;
    DocIsMapping(files, "final_report.json");
    DocIsMapping(files, "task.json");
    DocIsMapping(files, "intent.json");
    ProjectInMeans(ReadMapping(files, "final_report.json").value);
    ProjectInMeans(ReadMapping(files, "task.json").value);
    ProjectInMeans(ReadMapping(files, "intent.json").value);
    NothingNamed();
    var events := ReadChain(files).value;
    if events != [] && events[0].Obj? { ProjectInMeans(events[0].fields); }
  }

  lemma NothingNamed()
    ensures NamesNone(map[])
  {
  }

  /** A float token with no digit but zeros before its exponent. */
  predicate ZeroToken(t: string) {
    forall i :: 0 <= i < |t| && '1' <= t[i] <= '9' ==> exists j :: 0 <= j < i && (t[j] == 'e' || t[j] == 'E')
  }

  /** What Python counts as false: nothing, zeros, and what is empty. */
  lemma FalseValues(v: Json)
    ensures !Truthy(v) <==>
      v == Null || v == Bool(false) || v == Int(0) || v == Str("") || v == Arr([]) || v == Obj(map[]) || (v.Float? && ZeroToken(v.literal))
  {
  }

  // ---------------------------------------------------------------- the final event and the snapshots

  /** What the last event of a `finalize` says. */
  predicate SaysFinal(event: map<string, Json>, files: Files, job: string, project: string, now: string) {
    var report := Doc(files, "final_report.json");
    && event.Keys == EVENT_FIELDS && report.Some?
    && event["event_type"] == Str("evidence_finalized") && event["actor"] == Str("evidence_ledger")
    && event["timestamp"] == Str(now) && event["job_id"] == Str(job) && event["project_id"] == Str(project)
    && event["payload"] == Obj(map[
         "status" := Field(report.value, "status", Str("unknown")),
         "success" := Bool(Truthy(Field(report.value, "success", Bool(false)))),
         "compatibility_file_count" := Int(12)])
  }

  const ATTESTED: set<string> := {
    "contract_version", "evidence_schema_version", "hash_algorithm", "gateway_version", "job_id", "project_id", "source_commit",
    "sandbox_backend", "validation_summary", "project_intelligence", "final_event_hash", "manifest_checksum", "generated_at",
    "signer" }

  /** Who and when: the head of an attestation. */
  predicate AttestsHead(a: map<string, Json>, event: map<string, Json>, version: string)
    requires a.Keys == ATTESTED && event.Keys == EVENT_FIELDS
  {
    && a["contract_version"] == Str("upg.evidence/v1") && a["evidence_schema_version"] == Str("2.0")
    && a["hash_algorithm"] == Str("sha256") && a["gateway_version"] == Str(version)
    && a["job_id"] == event["job_id"] && a["project_id"] == event["project_id"]
    && a["final_event_hash"] == event["event_hash"] && a["generated_at"] == event["timestamp"]
    && a["signer"] == Obj(map["identity" := Str("universal-project-gateway-local-development"),
                              "signature_algorithm" := Str("none"), "signature" := Null])
  }

  /** What the attestation takes from the documents. */
  predicate AttestsDocuments(a: map<string, Json>, files: Files)
    requires a.Keys == ATTESTED
  {
    var snapshot, environment, validation :=
      Doc(files, "source_snapshot.json"), Doc(files, "environment.json"), Doc(files, "validation.json");
    && snapshot.Some? && environment.Some? && validation.Some?
    && a["source_commit"] == Field(snapshot.value, "source_revision", Null)
    && (var sandbox := Part(environment.value, "sandbox");
        a["sandbox_backend"] == Obj(map["backend_id" := Field(sandbox, "backend_id", Str("not_recorded")),
                                        "safety_level" := Field(sandbox, "safety_level", Str("not_recorded"))]))
    && (var mandatory := Field(validation.value, "mandatory", Arr([]));
        a["validation_summary"] == Obj(map[
          "passed" := Bool(Truthy(Field(validation.value, "passed", Bool(false)))),
          "mandatory" := if mandatory.Arr? then mandatory else Arr([]),
          "counts" := Obj(Part(validation.value, "counts")),
          "cancelled" := Bool(Truthy(Field(validation.value, "cancelled", Bool(false))))]))
    && a["project_intelligence"] == Obj(Part(validation.value, "project_intelligence"))
  }

  /** The digests of the twelve files, and the checksum over them. */
  predicate AttestsFiles(sha: Hash, a: map<string, Json>, files: Files)
    requires a.Keys == ATTESTED && COMPATIBILITY_FILES <= files.Keys
  {
    var digests: map<string, Json> := map name | name in COMPATIBILITY_FILES :: Str(sha(files[name]));
    a["manifest_checksum"] == Obj(map[
      "algorithm" := Str("sha256"), "scope" := Str("compatibility_evidence_file_digests"),
      "value" := Str(sha(Print(Obj(map["algorithm" := Str("sha256"), "files" := Obj(digests)]), Compact, 0)))])
  }

  predicate Attests(sha: Hash, a: map<string, Json>, files: Files, event: map<string, Json>, version: string) {
    && a.Keys == ATTESTED && event.Keys == EVENT_FIELDS && COMPATIBILITY_FILES <= files.Keys
    && AttestsHead(a, event, version) && AttestsDocuments(a, files) && AttestsFiles(sha, a, files)
  }

  /** The manifest lists every other file with its digest. */
  function ManifestText(sha: Hash, files: Files): string {
    Print(Obj(map["algorithm" := Str("sha256"), "schema_version" := Str("2.0"),
                  "files" := Obj(map name | name in files && name != CHECKSUM_FILE :: Str(sha(files[name])))]), Indented, 0) + "\n"
  }

  /** What a successful `finalize` leaves: a final event that says so, an attestation of the documents and that
      event, and a manifest of it all. */
  ghost predicate Snapshot(sha: Hash, files: Files, event: Json, job: string, version: string, first: Option<Json>, now: string) {
    && event.Obj? && CHECKSUM_FILE in files && ATTESTATION_FILE in files
    && files[CHECKSUM_FILE] == ManifestText(sha, files)
    && (exists a :: files[ATTESTATION_FILE] == Print(Obj(a), Indented, 0) + "\n" && Attests(sha, a, files, event.fields, version))
    && (exists project :: ProjectOf(files, first, project) && SaysFinal(event.fields, files, job, project, now))
  }

  // ---------------------------------------------------------------- what a successful finalize leaves

  lemma SameDocs(was: Files, files: Files, name: string)
    requires SameDocuments(was, files) && name in COMPATIBILITY_FILES
    ensures Doc(files, name) == Doc(was, name)
  {
    hide COMPATIBILITY_FILES;
  }

  lemma ReadNames()
    ensures {"final_report.json", "task.json", "intent.json", "source_snapshot.json", "environment.json", "validation.json"}
         <= COMPATIBILITY_FILES
  {
  }

  lemma RequestSays(files: Files, job: string, project: string, now: string)
    requires Doc(files, "final_report.json").Some?
    ensures var r := FinalRequest(files, job, project, now); var report := Doc(files, "final_report.json").value;
      && r.job == job && r.project == project && r.eventType == "evidence_finalized" && r.actor == "evidence_ledger"
      && r.timestamp == now
      && r.payload == Obj(map["status" := Field(report, "status", Str("unknown")),
                              "success" := Bool(Truthy(Field(report, "success", Bool(false)))),
                              "compatibility_file_count" := Int(12)])
  {
    hide Truthy, ReadMapping, Doc;
    DocIsMapping(files, "final_report.json");
  }

  lemma EventSays(sha: Hash, log: seq<Json>, r: Request, event: Json)
    requires CreateEvent(sha, HeaderFor(log, r), r.payload) == Event(event)
    ensures event.Obj? && event.fields.Keys == EVENT_FIELDS
    ensures var f := event.fields;
      && f["event_type"] == Str(r.eventType) && f["actor"] == Str(r.actor) && f["timestamp"] == Str(r.timestamp)
      && f["job_id"] == Str(r.job) && f["project_id"] == Str(r.project) && f["payload"] == r.payload
  {
    hide CreateEvent, Print, AllFinite, IsNormalPayload;
    CreatedEvent(sha, HeaderFor(log, r), r.payload, event);
  }

  lemma AttestationShape(sha: Hash, files: Files, version: string, r: Request, finalHash: Json)
    requires Attestation(sha, files, version, r, finalHash).Some?
    ensures var v := Attestation(sha, files, version, r, finalHash).value;
      v.Obj? && v.fields.Keys == ATTESTED
  {
    hide DigestsOf, ReadMapping, SubObject, GetOr, Get, ValidationSummary, SandboxBackend, ManifestChecksum, Signer;
  }

  lemma AttestationHead(sha: Hash, files: Files, version: string, r: Request, event: map<string, Json>)
    requires event.Keys == EVENT_FIELDS
    requires event["job_id"] == Str(r.job) && event["project_id"] == Str(r.project) && event["timestamp"] == Str(r.timestamp)
    requires Attestation(sha, files, version, r, event["event_hash"]).Some?
    ensures var v := Attestation(sha, files, version, r, event["event_hash"]).value;
      v.Obj? && v.fields.Keys == ATTESTED && AttestsHead(v.fields, event, version)
  {
    hide DigestsOf, ReadMapping, SubObject, GetOr, Get, ValidationSummary, SandboxBackend, ManifestChecksum;
    AttestationShape(sha, files, version, r, event["event_hash"]);
  }

  lemma PartsAndFields(fields: map<string, Json>, key: string)
    ensures SubObject(fields, key) == Part(fields, key) && Get(fields, key) == Field(fields, key, Null)
  {
  }

  lemma SummaryFields(validation: map<string, Json>)
    ensures var mandatory := Field(validation, "mandatory", Arr([]));
      ValidationSummary(validation) == Obj(map[
        "passed" := Bool(Truthy(Field(validation, "passed", Bool(false)))),
        "mandatory" := if mandatory.Arr? then mandatory else Arr([]),
        "counts" := Obj(Part(validation, "counts")),
        "cancelled" := Bool(Truthy(Field(validation, "cancelled", Bool(false))))])
  {
    hide Truthy;
  }

  lemma BackendFields(sandbox: map<string, Json>)
    ensures SandboxBackend(sandbox) == Obj(map["backend_id" := Field(sandbox, "backend_id", Str("not_recorded")),
                                               "safety_level" := Field(sandbox, "safety_level", Str("not_recorded"))])
  {
  }

  lemma AttestationDocuments(sha: Hash, files: Files, version: string, r: Request, finalHash: Json)
    requires Attestation(sha, files, version, r, finalHash).Some?
    ensures var v := Attestation(sha, files, version, r, finalHash).value;
      v.Obj? && v.fields.Keys == ATTESTED && AttestsDocuments(v.fields, files)
  {
    hide DigestsOf, ReadMapping, Truthy, ManifestChecksum, Signer, ATTESTED, Doc, ValidationSummary, SandboxBackend, SubObject, Part,
      Field, Get, GetOr;
    AttestationShape(sha, files, version, r, finalHash);
    DocIsMapping(files, "source_snapshot.json");
    DocIsMapping(files, "environment.json");
    DocIsMapping(files, "validation.json");
    var validation, environment := Doc(files, "validation.json").value, Doc(files, "environment.json").value;
    SummaryFields(validation);
    PartsAndFields(validation, "project_intelligence");
    PartsAndFields(environment, "sandbox");
    BackendFields(Part(environment, "sandbox"));
    PartsAndFields(Doc(files, "source_snapshot.json").value, "source_revision");
  }

  lemma AttestationFiles(sha: Hash, files: Files, version: string, r: Request, finalHash: Json)
    requires Attestation(sha, files, version, r, finalHash).Some? && COMPATIBILITY_FILES <= files.Keys
    ensures var v := Attestation(sha, files, version, r, finalHash).value;
      v.Obj? && v.fields.Keys == ATTESTED && AttestsFiles(sha, v.fields, files)
  {
    hide ReadMapping, SubObject, GetOr, Get, ValidationSummary, SandboxBackend, Signer, ATTESTED, COMPATIBILITY_FILES, Print;
    AttestationShape(sha, files, version, r, finalHash);
    var digests: map<string, Json> := map name | name in COMPATIBILITY_FILES :: Str(sha(files[name]));
    assert DigestsOf(sha, files, COMPATIBILITY_FILES) == digests;
  }

  lemma SameAttested(sha: Hash, a: map<string, Json>, was: Files, files: Files, event: map<string, Json>, version: string)
    requires Attests(sha, a, was, event, version) && SameDocuments(was, files)
    ensures Attests(sha, a, files, event, version)
  {
    hide ATTESTED, COMPATIBILITY_FILES, EVENT_FIELDS, AttestsHead, Doc, Print;
    ReadNames();
    SameDocs(was, files, "source_snapshot.json");
    SameDocs(was, files, "environment.json");
    SameDocs(was, files, "validation.json");
    var before: map<string, Json> := map name | name in COMPATIBILITY_FILES :: Str(sha(was[name]));
    var digests: map<string, Json> := map name | name in COMPATIBILITY_FILES :: Str(sha(files[name]));
    assert before == digests;
  }

  lemma SameProject(was: Files, files: Files, first: Option<Json>, project: string)
    requires ProjectOf(was, first, project) && SameDocuments(was, files)
    ensures ProjectOf(files, first, project)
  {
    hide COMPATIBILITY_FILES, Doc, Names, NamesNone;
    ReadNames();
    SameDocs(was, files, "final_report.json");
    SameDocs(was, files, "task.json");
    SameDocs(was, files, "intent.json");
  }

  lemma OtherDigests(sha: Hash, files: Files, sealed: Files)
    requires CHECKSUM_FILE in sealed && sealed == files[CHECKSUM_FILE := sealed[CHECKSUM_FILE]]
    ensures (map name | name in sealed && name != CHECKSUM_FILE :: Str(sha(sealed[name]))) == DigestsOf(sha, files, files.Keys - {CHECKSUM_FILE})
  {
  }

  lemma SealedTexts(sha: Hash, files: Files, attestation: Json)
    ensures var f := Sealed(sha, files, attestation);
      CHECKSUM_FILE in f && ATTESTATION_FILE in f && f[CHECKSUM_FILE] == ManifestText(sha, f)
      && f[ATTESTATION_FILE] == Print(attestation, Indented, 0) + "\n"
  {
    hide Print, DigestsOf;
    NamesDistinct();
    var attested := files[ATTESTATION_FILE := DocumentText(attestation)];
    OtherDigests(sha, attested, Sealed(sha, files, attestation));
  }

  /** The sealed directory is a snapshot of itself. */
  lemma SealedSnapshot(sha: Hash, staged: Files, log: seq<Json>, job: string, version: string, project: string, now: string,
                       event: Json, a: Json)
    requires COMPATIBILITY_FILES <= staged.Keys && ReadChain(staged) == Some(log) && InferProject(staged) == Some(project)
    requires Doc(staged, "final_report.json").Some?
    requires var r := FinalRequest(staged, job, project, now);
      CreateEvent(sha, HeaderFor(log, r), r.payload) == Event(event)
      && Attestation(sha, Appended(staged, event), version, r, Get(event.fields, "event_hash")) == Some(a)
    ensures Snapshot(sha, Sealed(sha, Appended(staged, event), a), event, job, version, if log != [] then Some(log[0]) else None, now)
  {
    hide Sealed, Appended, Attestation, CreateEvent, FinalRequest, InferProject, ReadChain, Doc, AttestsHead, AttestsDocuments,
      AttestsFiles, ProjectOf, ManifestText, COMPATIBILITY_FILES, Print, Truthy, ATTESTED;
    var r := FinalRequest(staged, job, project, now);
    var appended := Appended(staged, event);
    var f := Sealed(sha, appended, a);
    RequestSays(staged, job, project, now);
    EventSays(sha, log, r, event);
    AppendKeepsDocuments(staged, event);
    SealKeepsDocuments(sha, appended, a);
    SealedTexts(sha, appended, a);
    AttestationHead(sha, appended, version, r, event.fields);
    AttestationDocuments(sha, appended, version, r, event.fields["event_hash"]);
    AttestationFiles(sha, appended, version, r, event.fields["event_hash"]);
    SameAttested(sha, a.fields, appended, f, event.fields, version);
    InferredProject(staged);
    SameProject(staged, f, if log != [] then Some(log[0]) else None, project);
    ReadNames();
    SameDocs(staged, f, "final_report.json");
    assert SaysFinal(event.fields, f, job, project, now);
  }

  lemma FinalizeSnapshot(sha: Hash, files: Files, log: seq<Json>, job: string, version: string, report: Option<Json>, now: string)
    requires Sound(sha, files, log) && Finalize(sha, files, job, version, report, now).outcome.Done?
    ensures var z := Finalize(sha, files, job, version, report, now);
      Snapshot(sha, z.files, z.outcome.event, job, version, if log != [] then Some(log[0]) else None, now)
  {
    hide Staged, ReadMapping, InferProject, FinalRequest, PlanAppend, Appended, Attestation, Sealed, Get, Sound, CreateEvent,
      Snapshot, ValidChain, LastHash, SameIdentity, AllLineSafe, COMPATIBILITY_FILES, Doc;
    var staged := Staged(files, report);
    StagedFiles(sha, files, log, report);
    DocIsMapping(staged, "final_report.json");
    var project := InferProject(staged).value;
    var r := FinalRequest(staged, job, project, now);
    PlanOnSound(sha, staged, log, r);
    ReadSound(sha, staged, log);
    var event := PlanAppend(sha, staged, r).event;
    var a := Attestation(sha, Appended(staged, event), version, r, Get(event.fields, "event_hash"));
    SealedSnapshot(sha, staged, log, job, version, project, now, event, a.value);
  }

  // ---------------------------------------------------------------- when finalize fails

  const SUMMARISED: set<string> := { "source_snapshot.json", "environment.json", "validation.json" }
  const NAMING: set<string> := { "final_report.json", "task.json", "intent.json" }

  predicate AllDocs(files: Files, names: set<string>) { forall name :: name in names ==> Doc(files, name).Some? }

  function FirstOf(log: seq<Json>): Option<Json> { if log != [] then Some(log[0]) else None }

  /** The chain belongs to another job or project. */
  ghost predicate Foreign(files: Files, log: seq<Json>, job: string) {
    log != [] && log[0].Obj? &&
    (Field(log[0].fields, "job_id", Null) != Str(job)
     || forall project :: ProjectOf(files, FirstOf(log), project) ==> Field(log[0].fields, "project_id", Null) != Str(project))
  }

  /** The final event cannot be created. */
  predicate Unsayable(files: Files, job: string, now: string)
    requires Doc(files, "final_report.json").Some?
  {
    job == "" || now == "" || now[|now| - 1] != 'Z'
    || !IsNormalPayload(Field(Doc(files, "final_report.json").value, "status", Str("unknown")))
  }

  /** What the error of a `finalize` says of the files it leaves and of the chain before it. */
  ghost predicate Blames(files: Files, log: seq<Json>, job: string, now: string, e: EvidenceError) {
    match e
    case DocumentInvalid => !AllDocs(files, NAMING + SUMMARISED)
    case ChainInvalid => AllDocs(files, NAMING) && !AllLineSafe(log)
    case IdentityConflict => AllDocs(files, NAMING) && AllLineSafe(log) && Foreign(files, log, job)
    case EventRefused(reason) =>
      AllDocs(files, NAMING) && AllLineSafe(log) && !Foreign(files, log, job)
      && (Unsayable(files, job, now) || reason == BadPrevious)
    case FileForbidden => false
  }

  /** Nothing stands against a `finalize`. */
  ghost predicate NothingAgainst(files: Files, log: seq<Json>, job: string, now: string) {
    AllDocs(files, NAMING + SUMMARISED) && AllLineSafe(log) && !Foreign(files, log, job) && !Unsayable(files, job, now)
  }

  lemma ProjectUnique(files: Files, first: Option<Json>, a: string, b: string)
    requires ProjectOf(files, first, a) && ProjectOf(files, first, b)
    ensures a == b && a != ""
  {
    hide Doc;
  }

  lemma ForeignExactly(files: Files, log: seq<Json>, job: string, project: string)
    requires ProjectOf(files, FirstOf(log), project) && (log != [] ==> log[0].Obj?)
    ensures Foreign(files, log, job) <==> !SameIdentity(log, job, project)
  {
    hide ProjectOf;
    if log != [] {
      forall other | ProjectOf(files, FirstOf(log), other) ensures other == project {
        ProjectUnique(files, FirstOf(log), other, project);
      }
    }
  }

  lemma SameReport(was: Files, files: Files)
    requires SameDocuments(was, files)
    ensures forall names :: names <= COMPATIBILITY_FILES ==> (AllDocs(was, names) <==> AllDocs(files, names))
    ensures NAMING <= COMPATIBILITY_FILES && SUMMARISED <= COMPATIBILITY_FILES
    ensures Doc(was, "final_report.json") == Doc(files, "final_report.json")
  {
    hide COMPATIBILITY_FILES, Doc;
    ReadNames();
    SameDocs(was, files, "final_report.json");
    forall names | names <= COMPATIBILITY_FILES ensures AllDocs(was, names) <==> AllDocs(files, names) {
      forall name | name in names ensures Doc(was, name) == Doc(files, name) { SameDocs(was, files, name); }
    }
  }

  lemma SameForeign(was: Files, files: Files, log: seq<Json>, job: string)
    requires SameDocuments(was, files)
    ensures Foreign(was, log, job) <==> Foreign(files, log, job)
  {
    hide ProjectOf, SameDocuments, Doc;
    forall project ensures ProjectOf(was, FirstOf(log), project) <==> ProjectOf(files, FirstOf(log), project) {
      SameBack(was, files);
      if ProjectOf(was, FirstOf(log), project) { SameProject(was, files, FirstOf(log), project); }
      if ProjectOf(files, FirstOf(log), project) { SameProject(files, was, FirstOf(log), project); }
    }
  }

  lemma SameBack(was: Files, files: Files)
    requires SameDocuments(was, files)
    ensures SameDocuments(files, was)
  {
    hide COMPATIBILITY_FILES;
  }

  /** The documents that do not decide anything after the append are the same as before it. */
  lemma SameBlame(was: Files, files: Files, log: seq<Json>, job: string, now: string, e: EvidenceError)
    requires SameDocuments(was, files)
    ensures Blames(was, log, job, now, e) <==> Blames(files, log, job, now, e)
    ensures NothingAgainst(was, log, job, now) <==> NothingAgainst(files, log, job, now)
  {
    hide COMPATIBILITY_FILES, Doc, Foreign, SameDocuments, AllDocs, IsNormalPayload, AllLineSafe;
    SameReport(was, files);
    SameForeign(was, files, log, job);
    NamingHasReport(was);
    NamingHasReport(files);
  }

  lemma NamingHasReport(files: Files)
    ensures AllDocs(files, NAMING) ==> Doc(files, "final_report.json").Some?
    ensures AllDocs(files, NAMING + SUMMARISED) <==> AllDocs(files, NAMING) && AllDocs(files, SUMMARISED)
  {
    hide Doc;
    assert "final_report.json" in NAMING;
    hide NAMING, SUMMARISED;
  }

  lemma NamingDocs(files: Files)
    ensures AllDocs(files, NAMING) <==>
      ReadMapping(files, "final_report.json").Some? && ReadMapping(files, "task.json").Some? && ReadMapping(files, "intent.json").Some?
  {
    hide Doc, ReadMapping;
    DocIsMapping(files, "final_report.json");
    DocIsMapping(files, "task.json");
    DocIsMapping(files, "intent.json");
  }

  lemma SummarisedDocs(sha: Hash, files: Files, version: string, r: Request, finalHash: Json)
    ensures Attestation(sha, files, version, r, finalHash).Some? <==> AllDocs(files, SUMMARISED)
  {
    hide Doc, ReadMapping, ManifestChecksum, ValidationSummary, SandboxBackend, SubObject, Get, Signer, DigestsOf;
    DocIsMapping(files, "source_snapshot.json");
    DocIsMapping(files, "environment.json");
    DocIsMapping(files, "validation.json");
  }

  lemma FinalHeader(log: seq<Json>, r: Request)
    requires r.eventType == "evidence_finalized" && r.actor == "evidence_ledger"
    ensures IsComponent(r.eventType) && IsComponent(r.actor) && HeaderFor(log, r).sequence >= 1
  {
    hide PreviousOf;
  }

  lemma PayloadNormal(status: Json, success: bool)
    ensures var fields: map<string, Json> := map["status" := status, "success" := Bool(success), "compatibility_file_count" := Int(12)];
      IsNormalPayload(Obj(fields)) <==> IsNormalPayload(status)
  {
    hide LooksAbsolute;
    assert "status" != "success" by { assert "success"[1] == 'u' && "status"[1] == 't'; }
    var fields: map<string, Json> := map["status" := status, "success" := Bool(success), "compatibility_file_count" := Int(12)];
    assert fields["status"] == status by { assert |"compatibility_file_count"| != |"status"|; }
  }

  /** The final event is refused for its job, its time, its status, or the hash before it. */
  lemma SayableExactly(sha: Hash, files: Files, log: seq<Json>, job: string, project: string, now: string)
    requires Doc(files, "final_report.json").Some? && project != ""
    ensures var r := FinalRequest(files, job, project, now); var c := CreateEvent(sha, HeaderFor(log, r), r.payload);
      && (c.Refused? <==> Unsayable(files, job, now) || !IsHexDigest(PreviousOf(log)))
      && (c.Refused? ==> Unsayable(files, job, now) || c.error == BadPrevious)
  {
    hide Doc, FinalRequest, IsNormalPayload, Truthy, EventMaterial, IsComponent, IsHexDigest, PreviousOf, Digest;
    var r := FinalRequest(files, job, project, now);
    var report := Doc(files, "final_report.json").value;
    RequestSays(files, job, project, now);
    FinalHeader(log, r);
    PayloadNormal(Field(report, "status", Str("unknown")), Truthy(Field(report, "success", Bool(false))));
  }

  lemma PreviousIsHex(sha: Hash, log: seq<Json>)
    requires ValidLinks(sha, log) && MakesDigests(sha)
    ensures IsHexDigest(PreviousOf(log))
  {
    hide IsHexDigest, EqualsIndex, Print, IsNormalPayload, AllFinite;
    if log == [] { GenesisIsHex(); } else { assert ValidEvent(sha, log, |log| - 1); }
  }

  lemma GenesisIsHex()
    ensures IsHexDigest(GENESIS)
  {
  }

  lemma InferFails(files: Files, log: seq<Json>)
    requires AllDocs(files, NAMING) && ReadChain(files) == if AllLineSafe(log) then Some(log) else None
    ensures InferProject(files).None? ==> !AllLineSafe(log)
  {
    hide ReadMapping, ReadChain, ProjectIn, Doc, NAMING, AllLineSafe;
    NamingDocs(files);
  }

  lemma InferNeedsDocs(files: Files)
    ensures InferProject(files).Some? ==>
      ReadMapping(files, "final_report.json").Some? && ReadMapping(files, "task.json").Some? && ReadMapping(files, "intent.json").Some?
  {
    hide ReadMapping, ReadChain, ProjectIn;
  }

  /** Before the append: what is decided on the staged files. */
  lemma StagedBlames(sha: Hash, staged: Files, log: seq<Json>, job: string, now: string)
    requires Sound(sha, staged, log) && AllDocs(staged, NAMING)
    ensures InferProject(staged).None? ==> !AllLineSafe(log)
    ensures InferProject(staged).Some? ==>
      var plan := PlanAppend(sha, staged, FinalRequest(staged, job, InferProject(staged).value, now));
      && (plan.Failed? ==> Blames(staged, log, job, now, plan.error))
      && (plan.Done? ==> AllLineSafe(log) && !Foreign(staged, log, job) && !Unsayable(staged, job, now))
      && (MakesDigests(sha) && AllLineSafe(log) && !Foreign(staged, log, job) && !Unsayable(staged, job, now) ==> plan.Done?)
  {
    hide InferProject, FinalRequest, PlanAppend, Doc, ReadChain, CreateEvent, Sound, Foreign, Unsayable, ProjectOf, MakesDigests,
      SameIdentity, AllLineSafe, NAMING, ValidChain, LastHash;
    ReadSound(sha, staged, log);
    InferFails(staged, log);
    NamingHasReport(staged);
    if InferProject(staged).Some? {
      var project := InferProject(staged).value;
      var r := FinalRequest(staged, job, project, now);
      RequestSays(staged, job, project, now);
      PlanOnSound(sha, staged, log, r);
      if AllLineSafe(log) {
        InferredProject(staged);
        ProjectUnique(staged, FirstOf(log), project, project);
        SoundLinks(sha, staged, log);
        ForeignExactly(staged, log, job, project);
        SayableExactly(sha, staged, log, job, project, now);
        if MakesDigests(sha) { PreviousIsHex(sha, log); }
      }
    }
  }

  lemma SoundLinks(sha: Hash, files: Files, log: seq<Json>)
    requires Sound(sha, files, log)
    ensures ValidLinks(sha, log) && (log != [] ==> log[0].Obj?)
  {
    hide ValidEvent, FileText;
    ValidLinksAreObjects(sha, log);
  }

  /** After the append: only the summarised documents can still stand in the way. */
  lemma AppendedBlames(sha: Hash, staged: Files, log: seq<Json>, job: string, version: string, r: Request, now: string, event: Json)
    requires event.Obj? && AllDocs(staged, NAMING) && AllLineSafe(log) && !Foreign(staged, log, job) && !Unsayable(staged, job, now)
    ensures var appended := Appended(staged, event);
      var a := Attestation(sha, appended, version, r, Get(event.fields, "event_hash"));
      if a.Some? then NothingAgainst(Sealed(sha, appended, a.value), log, job, now)
      else Blames(appended, log, job, now, DocumentInvalid) && !NothingAgainst(appended, log, job, now)
  {
    hide Appended, Attestation, Sealed, Get, Foreign, Unsayable, SameDocuments, AllDocs, AllLineSafe, NAMING, SUMMARISED,
      COMPATIBILITY_FILES, Doc;
    var appended := Appended(staged, event);
    var a := Attestation(sha, appended, version, r, Get(event.fields, "event_hash"));
    AppendKeepsDocuments(staged, event);
    SummarisedDocs(sha, appended, version, r, Get(event.fields, "event_hash"));
    SameReport(staged, appended);
    NamingHasReport(staged);
    NamingHasReport(appended);
    SameBlame(staged, appended, log, job, now, DocumentInvalid);
    if a.Some? {
      SealKeepsDocuments(sha, appended, a.value);
      SameBlame(appended, Sealed(sha, appended, a.value), log, job, now, DocumentInvalid);
    }
  }

  /** A `finalize` succeeds exactly if nothing stands against it, and else its error says what does. */
  lemma FinalizeBlames(sha: Hash, files: Files, log: seq<Json>, job: string, version: string, report: Option<Json>, now: string)
    requires Sound(sha, files, log)
    ensures var z := Finalize(sha, files, job, version, report, now);
      && (z.outcome.Failed? ==> Blames(z.files, log, job, now, z.outcome.error))
      && (z.outcome.Done? ==> NothingAgainst(z.files, log, job, now))
      && (MakesDigests(sha) && NothingAgainst(z.files, log, job, now) ==> z.outcome.Done?)
  {
    hide Staged, ReadMapping, InferProject, FinalRequest, PlanAppend, Appended, Attestation, Sealed, Get, Sound, Foreign,
      Unsayable, MakesDigests, SameDocuments, AllDocs, AllLineSafe, NAMING, SUMMARISED, COMPATIBILITY_FILES;
    var z := Finalize(sha, files, job, version, report, now);
    var staged := Staged(files, report);
    StagedFiles(sha, files, log, report);
    NamingHasReport(staged);
    NamingDocs(staged);
    InferNeedsDocs(staged);
    if AllDocs(staged, NAMING) {
      StagedBlames(sha, staged, log, job, now);
      if InferProject(staged).Some? {
        var r := FinalRequest(staged, job, InferProject(staged).value, now);
        if PlanAppend(sha, staged, r).Done? {
          AppendedBlames(sha, staged, log, job, version, r, now, PlanAppend(sha, staged, r).event);
        }
      }
    }
  }

  // ---------------------------------------------------------------- the names

  /** There are twelve compatibility files. */
  lemma TwelveFiles()
    ensures |COMPATIBILITY_FILES| == 12
  {
    NineDocuments();
    ThreeTexts();
    forall name | name in JSON_FILES ensures name !in TEXT_FILES { LastLetters(name); }
    hide JSON_FILES, TEXT_FILES;
    assert JSON_FILES !! TEXT_FILES;
  }

  lemma LastLetters(name: string)
    ensures name in JSON_FILES ==> name != "" && name[|name| - 1] == 'n'
    ensures name in TEXT_FILES ==> name != "" && name[|name| - 1] != 'n'
  {
  }

  lemma NineDocuments()
    ensures |JSON_FILES| == 9
  {
    Initials();
    var a := {"task.json", "intent.json", "context_pack.json"};
    var b := {"source_snapshot.json", "operations.json", "files_changed.json"};
    var c := {"validation.json", "environment.json", "final_report.json"};
    assert |a| == 3 && |b| == 3 && |c| == 3 && a !! b && (a + b) !! c;
    assert JSON_FILES == a + b + c;
  }

  lemma ThreeTexts()
    ensures |TEXT_FILES| == 3
  {
    assert "patch.diff"[0] == 'p' && "stdout.log"[3] == 'o' && "stderr.log"[3] == 'e';
  }

  lemma Initials()
    ensures "task.json"[0] == 't' && "intent.json"[0] == 'i' && "context_pack.json"[0] == 'c' && "operations.json"[0] == 'o'
    ensures "source_snapshot.json"[0] == 's' && "validation.json"[0] == 'v' && "environment.json"[0] == 'e'
    ensures "files_changed.json"[..3] == "fil" && "final_report.json"[..3] == "fin"
  {
  }
}
