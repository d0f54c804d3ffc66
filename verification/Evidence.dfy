/** One job's evidence directory (`EvidenceLedger`): file names to file texts. Documents arrive redacted. */
module Evidence {
  import opened Text
  import opened Json
  import opened JsonLines
  import opened EventChain

  type Files = map<string, string>

  const CHAIN_FILE: string := "evidence_events.jsonl"
  const ATTESTATION_FILE: string := "attestation.json"
  const CHECKSUM_FILE: string := "manifest.sha256.json"

  const JSON_FILES: set<string> := {
    "task.json", "intent.json", "context_pack.json", "source_snapshot.json", "operations.json",
    "files_changed.json", "validation.json", "environment.json", "final_report.json" }
  const TEXT_FILES: set<string> := { "patch.diff", "stdout.log", "stderr.log" }
  const COMPATIBILITY_FILES: set<string> := JSON_FILES + TEXT_FILES

  datatype EvidenceError =
    | FileForbidden | DocumentInvalid | ChainInvalid | IdentityConflict
    | EventRefused(reason: CreateError)

  datatype Outcome = Done(event: Json) | Failed(error: EvidenceError)

  // ---------------------------------------------------------------- documents

  /** `json.dumps(value, sort_keys=True, indent=2, ensure_ascii=False) + "\n"`. */
  function DocumentText(v: Json): string { Print(v, Indented, 0) + "\n" }

  function LogText(t: string): string {
    if t != "" && t[|t| - 1] != '\n' then t + "\n" else t
  }

  datatype Data = Document(v: Json) | Log(t: string)

  /** `write`: JSON documents go to `.json` names, text to the others. */
  predicate CanWrite(name: string, data: Data) {
    match data
    case Document(_) => name in JSON_FILES
    case Log(_) => name in TEXT_FILES
  }

  function DataText(data: Data): string {
    match data
    case Document(v) => DocumentText(v)
    case Log(t) => LogText(t)
  }

  function Written(files: Files, name: string, data: Data): Files {
    files[name := DataText(data)]
  }

  /** `dict.get(key)`: a missing key reads as `None`, like JSON null. */
  function Get(fields: map<string, Json>, key: string): Json {
    if key in fields then fields[key] else Null
  }

  /** `dict.get(key, default)`. */
  function GetOr(fields: map<string, Json>, key: string, default: Json): Json {
    if key in fields then fields[key] else default
  }

  /** `_read_json_mapping` without an error list; `None` is the `EvidenceError`. */
  function ReadMapping(files: Files, name: string): Option<map<string, Json>> {
    if name !in files then None else
      match Loads(files[name])
      case Some(Obj(fields)) => Some(fields)
      case _ => None
  }

  /** Python truth of a JSON value. A float token is zero only if it has no digit but 0 before its
      exponent. */
  predicate Truthy(v: Json) {
    match v
    case Null => false
    case Bool(b) => b
    case Int(n) => n != 0
    case Float(literal) =>
      exists i :: 0 <= i < |literal| && '1' <= literal[i] <= '9' &&
        forall j :: 0 <= j < i ==> literal[j] != 'e' && literal[j] != 'E'
    case NonFinite(_) => true
    case Str(t) => t != ""
    case Arr(items) => items != []
    case Obj(fields) => fields != map[]
  }

  // ---------------------------------------------------------------- appending

  /** `_read_event_chain`: no file means no events. */
  function ReadChain(files: Files): Option<seq<Json>> {
    if CHAIN_FILE in files then ReadEvents(files[CHAIN_FILE]) else Some([])
  }

  function ChainText(files: Files): string {
    if CHAIN_FILE in files then files[CHAIN_FILE] else ""
  }

  /** The hash a new event continues. */
  function PreviousOf(events: seq<Json>): string {
    if events != [] && IsEventObject(events[|events| - 1]) then Recorded(events[|events| - 1]) else GENESIS
  }

  predicate SameIdentity(events: seq<Json>, job: string, project: string) {
    events != [] ==>
      events[0].Obj? && Get(events[0].fields, "job_id") == Str(job)
      && Get(events[0].fields, "project_id") == Str(project)
  }

  datatype Request = Request(job: string, project: string, eventType: string, actor: string,
                             timestamp: string, payload: Json)

  function HeaderFor(events: seq<Json>, r: Request): Header {
    Header(|events| + 1, r.eventType, r.timestamp, r.job, r.project, r.actor, PreviousOf(events))
  }

  /** What `append_event` decides before it touches any file. */
  function PlanAppend(sha: Hash, files: Files, r: Request): (o: Outcome)
    ensures o.Done? ==> o.event.Obj?
  {
    hide ChainErrors, IsEventObject;
    match ReadChain(files)
    case None => Failed(ChainInvalid)
    case Some(events) =>
      if events != [] && ChainErrors(sha, events) != [] then Failed(ChainInvalid)
      else if !SameIdentity(events, r.job, r.project) then Failed(IdentityConflict)
      else
        match CreateEvent(sha, HeaderFor(events, r), r.payload)
        case Refused(reason) => Failed(EventRefused(reason))
        case Event(event) => Done(event)
  }

  /** The derived snapshots are dropped and one line is added to the chain. */
  function Appended(files: Files, event: Json): Files {
    var chain := ChainText(files) + (Print(event, Compact, 0) + "\n");
    (files - {CHECKSUM_FILE, ATTESTATION_FILE})[CHAIN_FILE := chain]
  }

  // ---------------------------------------------------------------- finalizing

  function DefaultData(name: string): Data {
    if name in TEXT_FILES then Log("")
    else if name == "operations.json" || name == "files_changed.json" then Document(Arr([]))
    else if name == "validation.json" then
      Document(Obj(map[
        "overall_status" := Str("not_run"), "checks" := Arr([]),
        "summary" := Obj(map["passed" := Int(0), "failed" := Int(0), "skipped" := Int(0), "not_run" := Int(0)])]))
    else if name == "final_report.json" then
      Document(Obj(map["status" := Str("not_run"), "success" := Bool(false)]))
    else Document(Obj(map[]))
  }

  function WithDefaults(files: Files): Files {
    files + (map name | name in COMPATIBILITY_FILES - files.Keys :: DataText(DefaultData(name)))
  }

  /** The files just before the final event: old snapshots gone, report and defaults written. */
  function Staged(files: Files, report: Option<Json>): Files {
    var cleared := files - {CHECKSUM_FILE, ATTESTATION_FILE};
    WithDefaults(if report.Some? then Written(cleared, "final_report.json", Document(report.value)) else cleared)
  }

  function ProjectIn(fields: map<string, Json>): Option<string> {
    match Get(fields, "project_id")
    case Str(t) => if t != "" then Some(t) else None
    case _ => None
  }

  /** `_infer_project_id`; all three documents are read first, and any of them can fail. */
  function InferProject(files: Files): Option<string> {
    match (ReadMapping(files, "final_report.json"), ReadMapping(files, "task.json"), ReadMapping(files, "intent.json"))
    case (Some(report), Some(task), Some(intent)) =>
      if ProjectIn(report).Some? then ProjectIn(report)
      else if ProjectIn(task).Some? then ProjectIn(task)
      else if ProjectIn(intent).Some? then ProjectIn(intent)
      else (
        match ReadChain(files)
        case None => None
        case Some(events) =>
          if events != [] && events[0].Obj? && ProjectIn(events[0].fields).Some?
          then ProjectIn(events[0].fields) else Some("unknown-project"))
    case _ => None
  }

  /** What a job whose project cannot be inferred fails with: a document that is no object, or else a chain that
      cannot be read. */
  function InferError(files: Files): EvidenceError {
    if ReadMapping(files, "task.json").Some? && ReadMapping(files, "intent.json").Some? then ChainInvalid else DocumentInvalid
  }

  function FinalRequest(files: Files, job: string, project: string, now: string): Request {
    var report := match ReadMapping(files, "final_report.json") case Some(fields) => fields case None => map[];
    Request(job, project, "evidence_finalized", "evidence_ledger", now,
      Obj(map["status" := GetOr(report, "status", Str("unknown")),
              "success" := Bool(Truthy(GetOr(report, "success", Bool(false)))),
              "compatibility_file_count" := Int(12)]))
  }

  /** `compatibility_manifest_checksum`. */
  function DigestMapChecksum(sha: Hash, digests: map<string, Json>): string {
    sha(Print(Obj(map["algorithm" := Str("sha256"), "files" := Obj(digests)]), Compact, 0))
  }

  function DigestsOf(sha: Hash, files: Files, names: set<string>): map<string, Json> {
    map name | name in names && name in files :: Str(sha(files[name]))
  }

  function SubObject(fields: map<string, Json>, key: string): map<string, Json> {
    match Get(fields, key)
    case Obj(inner) => inner
    case _ => map[]
  }

  function ManifestChecksum(sha: Hash, digests: map<string, Json>): Json {
    Obj(map["algorithm" := Str("sha256"), "scope" := Str("compatibility_evidence_file_digests"),
            "value" := Str(DigestMapChecksum(sha, digests))])
  }

  function ValidationSummary(validation: map<string, Json>): Json {
    var mandatory := GetOr(validation, "mandatory", Arr([]));
    Obj(map[
      "passed" := Bool(Truthy(GetOr(validation, "passed", Bool(false)))),
      "mandatory" := if mandatory.Arr? then mandatory else Arr([]),
      "counts" := Obj(SubObject(validation, "counts")),
      "cancelled" := Bool(Truthy(GetOr(validation, "cancelled", Bool(false))))])
  }

  function SandboxBackend(sandbox: map<string, Json>): Json {
    Obj(map["backend_id" := GetOr(sandbox, "backend_id", Str("not_recorded")),
            "safety_level" := GetOr(sandbox, "safety_level", Str("not_recorded"))])
  }

  function Signer(): Json {
    Obj(map["identity" := Str("universal-project-gateway-local-development"),
            "signature_algorithm" := Str("none"), "signature" := Null])
  }

  /** `_build_attestation`; `None` when one of the three documents it summarises is not an object. */
  function Attestation(sha: Hash, files: Files, version: string, r: Request, finalHash: Json): Option<Json> {
    match (ReadMapping(files, "source_snapshot.json"), ReadMapping(files, "environment.json"),
           ReadMapping(files, "validation.json"))
    case (Some(snapshot), Some(environment), Some(validation)) =>
      Some(Obj(map[
        "contract_version" := Str("upg.evidence/v1"),
        "evidence_schema_version" := Str("2.0"),
        "hash_algorithm" := Str("sha256"),
        "gateway_version" := Str(version),
        "job_id" := Str(r.job),
        "project_id" := Str(r.project),
        "source_commit" := Get(snapshot, "source_revision"),
        "sandbox_backend" := SandboxBackend(SubObject(environment, "sandbox")),
        "validation_summary" := ValidationSummary(validation),
        "project_intelligence" := Obj(SubObject(validation, "project_intelligence")),
        "final_event_hash" := finalHash,
        "manifest_checksum" := ManifestChecksum(sha, DigestsOf(sha, files, COMPATIBILITY_FILES)),
        "generated_at" := Str(r.timestamp),
        "signer" := Signer()]))
    case _ => None
  }

  /** The checksum manifest over every other file. */
  function Manifest(sha: Hash, files: Files): (r: Json)
    ensures r.Obj?
  {
    Obj(map["algorithm" := Str("sha256"), "schema_version" := Str("2.0"),
            "files" := Obj(DigestsOf(sha, files, files.Keys - {CHECKSUM_FILE}))])
  }

  function Sealed(sha: Hash, files: Files, attestation: Json): Files {
    var attested := files[ATTESTATION_FILE := DocumentText(attestation)];
    attested[CHECKSUM_FILE := DocumentText(Manifest(sha, attested))]
  }

  /** The directory a `finalize` leaves, the events it added to the chain, and its result. */
  datatype Finalized = Finalized(files: Files, added: seq<Json>, outcome: Outcome)

  /** `finalize`, also where it fails half-way. */
  function Finalize(sha: Hash, files: Files, job: string, version: string, report: Option<Json>, now: string)
    : Finalized
  {
    hide *;
    var staged := Staged(files, report);
    if ReadMapping(staged, "final_report.json").None?
    then Finalized(staged, [], Failed(DocumentInvalid)) else
      match InferProject(staged)
      case None => Finalized(staged, [], Failed(InferError(staged)))
      case Some(project) =>
        var r := FinalRequest(staged, job, project, now);
        match PlanAppend(sha, staged, r)
        case Failed(e) => Finalized(staged, [], Failed(e))
        case Done(event) =>
          var appended := Appended(staged, event);
          match Attestation(sha, appended, version, r, Get(event.fields, "event_hash"))
          case None => Finalized(appended, [event], Failed(DocumentInvalid))
          case Some(attestation) => Finalized(Sealed(sha, appended, attestation), [event], Done(event))
  }
}
