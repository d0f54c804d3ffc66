/** The ledger object of one job, and every history of its operations. */
module EvidenceLedger {
  import opened Text
  import opened Json
  import opened JsonLines
  import opened EventChain
  import opened ChainProofs
  import opened Evidence
  import opened EvidenceVerify
  import opened EvidenceProofs
  import opened EvidenceContents

  // ---------------------------------------------------------------- histories

  datatype Op =
    | WriteOp(name: string, data: Data)
    | AppendOp(request: Request)
    | FinalizeOp(version: string, report: Option<Json>, now: string)

  /** The directory and, beside it, every event ever appended. */
  datatype History = History(files: Files, log: seq<Json>)

  const START: History := History(map[], [])

  function Step(sha: Hash, job: string, h: History, op: Op): History {
    match op
    case WriteOp(name, data) => if CanWrite(name, data) then h.(files := Written(h.files, name, data)) else h
    case AppendOp(r) =>
      (match PlanAppend(sha, h.files, r)
       case Failed(_) => h
       case Done(event) => History(Appended(h.files, event), h.log + [event]))
    case FinalizeOp(version, report, now) =>
      var z := Finalize(sha, h.files, job, version, report, now);
      History(z.files, h.log + z.added)
  }

  function Run(sha: Hash, job: string, h: History, ops: seq<Op>): History
    decreases |ops|
  {
    hide Step;
    if ops == [] then h else Run(sha, job, Step(sha, job, h, ops[0]), ops[1..])
  }

  lemma StepKeepsSound(sha: Hash, job: string, h: History, op: Op)
    requires Sound(sha, h.files, h.log)
    ensures var next := Step(sha, job, h, op);
      Sound(sha, next.files, next.log) && h.log <= next.log
  {
    hide DataText, PlanAppend, Finalize, FileText, ValidEvent, Verified, LineSafe;
    NamesDistinct();
    match op
    case WriteOp(name, data) => assert CanWrite(name, data) ==> name in COMPATIBILITY_FILES;
    case AppendOp(r) =>
      PlanOnSound(sha, h.files, h.log, r);
      if PlanAppend(sha, h.files, r).Done? {
        AppendedSound(sha, h.files, h.log, PlanAppend(sha, h.files, r).event);
      }
    case FinalizeOp(version, report, now) => FinalizeOnSound(sha, h.files, h.log, job, version, report, now);
  }

  lemma {:induction false} ChainTextGrows(a: seq<Json>, b: seq<Json>)
    requires a <= b
    ensures FileText(a) <= FileText(b)
  {
    assert b == a + b[|a|..];
    assert Lines(b) == Lines(a) + Lines(b[|a|..]);
    JoinLinesAppend(Lines(a), Lines(b[|a|..]));
  }

  /** In every history the chain file is a valid chain that extends each earlier chain file byte for byte. */
  lemma {:induction false} ChainOnlyGrows(sha: Hash, job: string, h: History, ops: seq<Op>)
    requires Sound(sha, h.files, h.log)
    ensures var end := Run(sha, job, h, ops);
      && Sound(sha, end.files, end.log)
      && h.log <= end.log && ChainText(h.files) <= ChainText(end.files)
      && (end.log != [] ==> ValidChain(sha, end.log))
    decreases |ops|
  {
    hide FileText, ValidEvent, Step;
    if ops != [] {
      StepKeepsSound(sha, job, h, ops[0]);
      ChainOnlyGrows(sha, job, Step(sha, job, h, ops[0]), ops[1..]);
    }
    ChainTextGrows(h.log, Run(sha, job, h, ops).log);
  }

  /** No operation of the history is a `finalize` that reports success. */
  predicate NeverSeals(sha: Hash, job: string, h: History, ops: seq<Op>)
    decreases |ops|
  {
    hide Step, Finalize;
    ops != [] ==>
      (ops[0].FinalizeOp? ==>
        Finalize(sha, h.files, job, ops[0].version, ops[0].report, ops[0].now).outcome.Failed?)
      && NeverSeals(sha, job, Step(sha, job, h, ops[0]), ops[1..])
  }

  lemma StepStaysUnsealed(sha: Hash, job: string, h: History, op: Op)
    requires CHECKSUM_FILE !in h.files && NeverSeals(sha, job, h, [op])
    ensures CHECKSUM_FILE !in Step(sha, job, h, op).files
  {
    hide DataText, PlanAppend, DefaultData, InferProject, ReadMapping, Attestation, FinalRequest, Sealed, Print, ChainText;
    NamesDistinct();
    match op
    case WriteOp(name, data) => assert CanWrite(name, data) ==> name in COMPATIBILITY_FILES;
    case _ =>
  }

  lemma {:induction false} StaysUnsealed(sha: Hash, job: string, h: History, ops: seq<Op>)
    requires CHECKSUM_FILE !in h.files && NeverSeals(sha, job, h, ops)
    ensures !Verified(sha, Run(sha, job, h, ops).files)
    decreases |ops|
  {
    hide Step, Verified, Finalize;
    if ops == [] {
      UnsealedFails(sha, h.files);
    } else {
      assert NeverSeals(sha, job, h, [ops[0]]) by { assert [ops[0]][1..] == []; }
      StepStaysUnsealed(sha, job, h, ops[0]);
      StaysUnsealed(sha, job, Step(sha, job, h, ops[0]), ops[1..]);
    }
  }

  /** After an append nothing verifies until a `finalize` succeeds. */
  lemma AppendInvalidatesUntilFinalize(sha: Hash, job: string, h: History, r: Request, later: seq<Op>)
    requires PlanAppend(sha, h.files, r).Done?
    requires NeverSeals(sha, job, Step(sha, job, h, AppendOp(r)), later)
    ensures !Verified(sha, Run(sha, job, h, [AppendOp(r)] + later).files)
  {
    hide PlanAppend, Verified, Appended, NeverSeals;
    var ops := [AppendOp(r)] + later;
    assert ops[0] == AppendOp(r) && ops[1..] == later;
    AppendedFiles(h.files, PlanAppend(sha, h.files, r).event);
    StaysUnsealed(sha, job, Step(sha, job, h, AppendOp(r)), later);
  }

  lemma StartSound(sha: Hash)
    ensures Sound(sha, START.files, START.log)
  {
    assert FileText([]) == "";
  }

  lemma SoundAtEnd(sha: Hash, job: string, ops: seq<Op>)
    ensures var end := Run(sha, job, START, ops); Sound(sha, end.files, end.log)
  {
    hide Run, Sound;
    StartSound(sha);
    ChainOnlyGrows(sha, job, START, ops);
  }

  /** In every history that starts from an empty directory and ends with a successful `finalize`, the
      directory verifies exactly if every event ever appended is line-safe. */
  lemma FinalizeEstablishesVerify(sha: Hash, job: string, ops: seq<Op>, version: string, report: Option<Json>, now: string)
    requires var before := Run(sha, job, START, ops);
      Finalize(sha, before.files, job, version, report, now).outcome.Done?
    ensures var before := Run(sha, job, START, ops);
      var end := Step(sha, job, before, FinalizeOp(version, report, now));
      Verified(sha, end.files) <==> AllLineSafe(end.log)
  {
    hide Run, Finalize, Verified, LineSafe, AllLineSafe, Sound;
    SoundAtEnd(sha, job, ops);
    var before := Run(sha, job, START, ops);
    FinalizeOnSound(sha, before.files, before.log, job, version, report, now);
    SafeSnoc(before.log, Finalize(sha, before.files, job, version, report, now).outcome.event);
  }

  // ---------------------------------------------------------------- what histories leave in the files

  /** A compatibility file after one operation, by what was in it before. */
  function TextAfter(was: Option<string>, op: Op, name: string): Option<string> {
    match op
    case WriteOp(written, data) =>
      if written != name || data.Document? != (name in JSON_FILES) then was
      else if data.Document? then Some(Print(data.v, Indented, 0) + "\n")
      else Some(if data.t == "" || data.t[|data.t| - 1] == '\n' then data.t else data.t + "\n")
    case AppendOp(_) => was
    case FinalizeOp(_, report, _) =>
      if report.Some? && name == "final_report.json" then Some(Print(report.value, Indented, 0) + "\n")
      else Some(was.GetOr(DefaultText(name)))
  }

  /** The text that the operations of a history leave in a file: that of the last accepted write to it, or the
      default of the first `finalize`. */
  function TextOf(was: Option<string>, ops: seq<Op>, name: string): Option<string>
    decreases |ops|
  {
    if ops == [] then was else TextOf(TextAfter(was, ops[0], name), ops[1..], name)
  }

  function FileAt(files: Files, name: string): Option<string> { if name in files then Some(files[name]) else None }

  lemma StepLeaves(sha: Hash, job: string, h: History, op: Op, name: string)
    requires name in COMPATIBILITY_FILES
    ensures FileAt(Step(sha, job, h, op).files, name) == TextAfter(FileAt(h.files, name), op, name)
  {
    hide PlanAppend, Finalize, Print, DefaultText, COMPATIBILITY_FILES;
    match op
    case WriteOp(written, data) => NameKinds(name);
    case AppendOp(r) =>
      if PlanAppend(sha, h.files, r).Done? { AppendKeepsDocuments(h.files, PlanAppend(sha, h.files, r).event); }
    case FinalizeOp(version, report, now) => FinalizeKeeps(sha, h.files, job, version, report, now);
  }

  lemma NameKinds(name: string)
    requires name in COMPATIBILITY_FILES
    ensures name in JSON_FILES <==> name !in TEXT_FILES
  {
    LastLetters(name);
  }

  /** In every history each compatibility file holds the text of the last accepted write to it, of the last
      report for the final report, or the default if a `finalize` found nothing there. */
  lemma {:induction false} FilesHoldLastWrites(sha: Hash, job: string, h: History, ops: seq<Op>, name: string)
    requires name in COMPATIBILITY_FILES
    ensures FileAt(Run(sha, job, h, ops).files, name) == TextOf(FileAt(h.files, name), ops, name)
    decreases |ops|
  {
    hide Step, TextAfter, COMPATIBILITY_FILES;
    if ops != [] {
      StepLeaves(sha, job, h, ops[0], name);
      FilesHoldLastWrites(sha, job, Step(sha, job, h, ops[0]), ops[1..], name);
    }
  }

  // ---------------------------------------------------------------- a history that does not verify

  /** A final report that carries a status. */
  function ReportWith(status: string): Json { Obj(map["status" := Str(status)]) }

  function FinalPayload(status: string): Json {
    Obj(map["status" := Str(status), "success" := Bool(false), "compatibility_file_count" := Int(12)])
  }

  lemma StagedAtStart(report: Json, name: string)
    requires name in JSON_FILES
    ensures var f := Staged(map[], Some(report));
      && CHAIN_FILE !in f && name in f
      && f[name] == DocumentText(if name == "final_report.json" then report else DefaultData(name).v)
  {
    hide DocumentText, LogText;
    NamesDistinct();
    NoTextName(name);
  }

  lemma NoTextName(name: string)
    requires name in JSON_FILES
    ensures name !in TEXT_FILES && DefaultData(name).Document?
  {
    hide JSON_FILES, TEXT_FILES;
    EndsInJson(name);
    if name in TEXT_FILES { EndsInText(name); }
    hide DefaultData;
    DefaultDocument(name);
  }

  lemma DefaultDocument(name: string)
    requires name !in TEXT_FILES
    ensures DefaultData(name).Document?
  {
    hide TEXT_FILES;
  }

  lemma EndsInText(name: string)
    requires name in TEXT_FILES
    ensures name != "" && name[|name| - 1] != 'n'
  {
  }

  lemma EndsInJson(name: string)
    requires name in JSON_FILES
    ensures name != "" && name[|name| - 1] == 'n'
  {
  }

  lemma ReadAtStart(report: Json, name: string)
    requires name in JSON_FILES
    ensures ReadMapping(Staged(map[], Some(report)), name) ==
      match (if name == "final_report.json" then report else DefaultData(name).v) case Obj(fields) => Some(fields) case _ => None
  {
    hide ReadMapping, DocumentText, Staged, DefaultData;
    StagedAtStart(report, name);
    NoTextName(name);
    DocumentReadsBack(Staged(map[], Some(report)), name, if name == "final_report.json" then report else DefaultData(name).v);
  }

  /** The documents that `finalize` reads when nothing but its report was written. */
  lemma DocumentsAtStart(report: Json)
    ensures var f := Staged(map[], Some(report));
      && ReadMapping(f, "task.json") == Some(map[]) && ReadMapping(f, "intent.json") == Some(map[])
      && ReadMapping(f, "source_snapshot.json") == Some(map[]) && ReadMapping(f, "environment.json") == Some(map[])
      && ReadMapping(f, "validation.json").Some? && CHAIN_FILE !in f
      && ReadMapping(f, "final_report.json") == match report case Obj(fields) => Some(fields) case _ => None
  {
    hide ReadMapping, Staged, DefaultData;
    StagedAtStart(report, "task.json");
    ReadAtStart(report, "task.json");
    ReadAtStart(report, "intent.json");
    ReadAtStart(report, "source_snapshot.json");
    ReadAtStart(report, "environment.json");
    ReadAtStart(report, "validation.json");
    ReadAtStart(report, "final_report.json");
    DefaultsAtStart();
  }

  lemma DefaultsAtStart()
    ensures DefaultData("task.json").v == Obj(map[]) && DefaultData("intent.json").v == Obj(map[])
    ensures DefaultData("source_snapshot.json").v == Obj(map[]) && DefaultData("environment.json").v == Obj(map[])
    ensures DefaultData("validation.json").v.Obj?
    ensures "task.json" != "final_report.json" && "intent.json" != "final_report.json" && "environment.json" != "final_report.json"
    ensures "source_snapshot.json" != "final_report.json" && "validation.json" != "final_report.json"
  {
    assert "task.json"[0] == 't' && "intent.json"[0] == 'i' && "source_snapshot.json"[0] == 's' && "environment.json"[0] == 'e';
    assert "validation.json"[0] == 'v' && "operations.json"[0] == 'o' && "files_changed.json"[1] == 'i' && "final_report.json"[2] == 'n';
    assert "patch.diff"[0] == 'p' && "stdout.log"[1] == 't' && "stderr.log"[1] == 't' && "source_snapshot.json"[1] == 'o';
  }

  function RequestAtStart(job: string, status: string, now: string): Request {
    Request(job, "unknown-project", "evidence_finalized", "evidence_ledger", now, FinalPayload(status))
  }

  lemma InferAtStart(status: string, job: string, now: string)
    ensures var f := Staged(map[], Some(ReportWith(status)));
      InferProject(f) == Some("unknown-project") && FinalRequest(f, job, "unknown-project", now) == RequestAtStart(job, status, now)
  {
    hide Staged, ReadMapping;
    DocumentsAtStart(ReportWith(status));
    assert "project_id" != "status" && "success" != "status" by { assert "project_id"[0] == 'p' && "success"[1] == 'u' && "status"[1] == 't'; }
  }

  lemma PlanAtStart(sha: Hash, job: string, status: string, now: string)
    requires job != "" && now != "" && now[|now| - 1] == 'Z' && !LooksAbsolute(status)
    ensures var f := Staged(map[], Some(ReportWith(status)));
      var h := Header(1, "evidence_finalized", now, job, "unknown-project", "evidence_ledger", GENESIS);
      PlanAppend(sha, f, RequestAtStart(job, status, now)).Done?
      && CreateEvent(sha, h, FinalPayload(status)) == Event(PlanAppend(sha, f, RequestAtStart(job, status, now)).event)
  {
    hide Staged, ReadMapping, EventMaterial, IsNormalPayload, Digest, IsComponent, IsHexDigest, GENESIS;
    DocumentsAtStart(ReportWith(status));
    HeaderAtStart();
    FinalPayloadNormal(status);
  }

  lemma HeaderAtStart()
    ensures IsComponent("evidence_finalized") && IsComponent("evidence_ledger") && IsHexDigest(GENESIS)
  {
  }

  lemma FinalPayloadNormal(status: string)
    requires !LooksAbsolute(status)
    ensures IsNormalPayload(FinalPayload(status))
  {
    hide LooksAbsolute;
  }

  lemma AttestationAtStart(sha: Hash, status: string, event: Json, version: string, r: Request, finalHash: Json)
    ensures Attestation(sha, Appended(Staged(map[], Some(ReportWith(status))), event), version, r, finalHash).Some?
  {
    hide Staged, ReadMapping, Appended, ManifestChecksum, ValidationSummary, SandboxBackend, SubObject, DigestsOf;
    var f := Staged(map[], Some(ReportWith(status)));
    DocumentsAtStart(ReportWith(status));
    ReadAfterAppend(f, event, "source_snapshot.json");
    ReadAfterAppend(f, event, "environment.json");
    ReadAfterAppend(f, event, "validation.json");
  }

  lemma ReadAfterAppend(files: Files, event: Json, name: string)
    requires name in COMPATIBILITY_FILES
    ensures ReadMapping(Appended(files, event), name) == ReadMapping(files, name)
  {
    hide Loads, Print, COMPATIBILITY_FILES;
    NamesDistinct();
  }

  /** A directory that has nothing can be finalized right away, with a report of any status that does not
      look like a path. */
  lemma FinalizeAtStart(sha: Hash, job: string, version: string, status: string, now: string)
    requires job != "" && now != "" && now[|now| - 1] == 'Z' && !LooksAbsolute(status)
    ensures var z := Finalize(sha, map[], job, version, Some(ReportWith(status)), now);
      z.outcome.Done? && z.added == [z.outcome.event] &&
      CreateEvent(sha, Header(1, "evidence_finalized", now, job, "unknown-project", "evidence_ledger", GENESIS), FinalPayload(status))
        == Event(z.outcome.event)
  {
    hide Staged, ReadMapping, InferProject, FinalRequest, PlanAppend, Attestation, Appended, Sealed, CreateEvent, LooksAbsolute, Get;
    InferAtStart(status, job, now);
    PlanAtStart(sha, job, status, now);
    DocumentsAtStart(ReportWith(status));
    var event := PlanAppend(sha, Staged(map[], Some(ReportWith(status))), RequestAtStart(job, status, now)).event;
    AttestationAtStart(sha, status, event, version, RequestAtStart(job, status, now), Get(event.fields, "event_hash"));
  }

  /** A history whose only operation is a `finalize` that reports success, and whose directory does not
      verify: the status of its report holds a line separator that canonical JSON leaves as it is. */
  lemma FinalizedUnverified(sha: Hash, version: string)
    ensures var op := FinalizeOp(version, Some(ReportWith("\U{2028}")), "Z"); var end := Run(sha, "j", START, [op]);
      && Finalize(sha, START.files, "j", version, op.report, op.now).outcome.Done?
      && |end.log| == 1 && !Verified(sha, end.files)
  {
    hide Finalize, Verified, Step, Run, LooksAbsolute, CreateEvent, LineSafe, AllLineSafe, FinalPayload, ReportWith, HeaderFields;
    var op := FinalizeOp(version, Some(ReportWith("\U{2028}")), "Z");
    SeparatorIsNoPath();
    FinalizeAtStart(sha, "j", version, "\U{2028}", "Z");
    OneOp(sha, "j", op);
    NoOp(sha, "j");
    var event := Finalize(sha, map[], "j", version, op.report, "Z").outcome.event;
    FinalizeEstablishesVerify(sha, "j", [], version, op.report, "Z");
    StepFinalize(sha, "j", START, op);
    CreatedEvent(sha, Header(1, "evidence_finalized", "Z", "j", "unknown-project", "evidence_ledger", GENESIS),
                 FinalPayload("\U{2028}"), event);
    UnsafePayload(event);
    SafeSnoc([], event);
  }

  lemma SeparatorIsNoPath()
    ensures !LooksAbsolute("\U{2028}")
  {
    assert |"\U{2028}"| == 1 && "\U{2028}"[0] != '/';
  }

  lemma NoOp(sha: Hash, job: string)
    ensures Run(sha, job, START, []) == START
  {
  }

  lemma OneOp(sha: Hash, job: string, op: Op)
    ensures Run(sha, job, START, [op]) == Step(sha, job, START, op)
  {
    hide Step;
    assert [op][1..] == [];
  }

  lemma StepFinalize(sha: Hash, job: string, h: History, op: Op)
    requires op.FinalizeOp?
    ensures var z := Finalize(sha, h.files, job, op.version, op.report, op.now);
      Step(sha, job, h, op) == History(z.files, h.log + z.added)
  {
    hide Finalize;
  }

  lemma UnsafePayload(event: Json)
    requires IsEventObject(event) && event.fields["payload"] == FinalPayload("\U{2028}")
    ensures !LineSafe(event)
  {
    assert "\U{2028}"[0] == '\U{2028}';
    assert !LineSafe(Str("\U{2028}"));
    assert FinalPayload("\U{2028}").fields["status"] == Str("\U{2028}");
    assert !LineSafe(FinalPayload("\U{2028}"));
    assert "payload" in EVENT_FIELDS;
  }

  // ---------------------------------------------------------------- the object

  class Ledger {
    const job: string
    var files: Files
    ghost var log: seq<Json>

    ghost predicate Valid(sha: Hash) reads this { Sound(sha, files, log) }

    constructor (sha: Hash, job: string)
      ensures Valid(sha) && this.job == job && files == map[] && log == []
    {
      this.job := job;
      files := map[];
      log := [];
    }

    /** `write`. */
    method Write(sha: Hash, name: string, data: Data) returns (accepted: bool)
      requires Valid(sha)
      modifies this`files
      ensures Valid(sha)
      ensures accepted <==> (data.Document? && name in JSON_FILES) || (data.Log? && name in TEXT_FILES)
      ensures !accepted ==> files == old(files)
      ensures accepted ==>
        files.Keys == old(files).Keys + {name} && WrittenAs(data, files[name])
        && forall other :: other in old(files) && other != name ==> files[other] == old(files)[other]
    {
      accepted := CanWrite(name, data);
      if accepted {
        StepKeepsSound(sha, job, History(files, log), WriteOp(name, data));
        WritesText(data);
        files := files[name := DataText(data)];
      }
    }

    /** `append_event`. */
    method AppendEvent(sha: Hash, r: Request) returns (outcome: Outcome)
      requires Valid(sha)
      modifies this
      ensures Valid(sha) && outcome == PlanAppend(sha, old(files), r)
      ensures History(files, log) == Step(sha, job, old(History(files, log)), AppendOp(r))
      ensures outcome.Failed? ==> files == old(files) && log == old(log)
      ensures outcome.Done? ==>
        log == old(log) + [outcome.event] && !Verified(sha, files) && SameDocuments(old(files), files)
        && files.Keys == old(files).Keys - {CHECKSUM_FILE, ATTESTATION_FILE} + {CHAIN_FILE}
        && files[CHAIN_FILE] == ChainText(old(files)) + Print(outcome.event, Compact, 0) + "\n"
    {
      hide Verified, CreateEvent, FileText, Print, ChainErrors, SameIdentity, Sound, SameDocuments, COMPATIBILITY_FILES;
      StepKeepsSound(sha, job, History(files, log), AppendOp(r));
      var chain := ReadChain(files);
      if chain.None? {
        return Failed(ChainInvalid);
      }
      var events := chain.value;
      if events != [] {
        var errors := VerifyEventRecords(sha, events);
        if errors != [] {
          return Failed(ChainInvalid);
        }
      }
      if !SameIdentity(events, r.job, r.project) {
        return Failed(IdentityConflict);
      }
      var created := CreateEvent(sha, HeaderFor(events, r), r.payload);
      if created.Refused? {
        return Failed(EventRefused(created.error));
      }
      var event := created.event;
      AppendedFiles(files, event);
      AppendKeepsDocuments(files, event);
      UnsealedFails(sha, Appended(files, event));
      var text := ChainText(files) + (Print(event, Compact, 0) + "\n");
      files := files - {CHECKSUM_FILE, ATTESTATION_FILE};
      files := files[CHAIN_FILE := text];
      log := log + [event];
      outcome := Done(event);
    }

    /** `finalize`. */
    method FinalizeJob(sha: Hash, version: string, report: Option<Json>, now: string) returns (outcome: Outcome)
      requires Valid(sha)
      modifies this
      ensures Valid(sha)
      ensures History(files, log) == Step(sha, job, old(History(files, log)), FinalizeOp(version, report, now))
      ensures outcome == Finalize(sha, old(files), job, version, report, now).outcome
      ensures outcome.Done? ==> (Verified(sha, files) <==> AllLineSafe(log))
      ensures outcome.Failed? ==> !Verified(sha, files)
      ensures AllKept(old(files), report, files)
      ensures outcome.Done? ==>
        log == old(log) + [outcome.event]
        && Snapshot(sha, files, outcome.event, job, version, if old(log) != [] then Some(old(log)[0]) else None, now)
      ensures MakesDigests(sha) ==> (outcome.Done? <==> NothingAgainst(files, old(log), job, now))
      ensures outcome.Failed? ==> Blames(files, old(log), job, now, outcome.error)
    {
      hide NothingAgainst, Blames, MakesDigests, AllKept, Snapshot, InferError, SameDocuments, Verified, Sound,
        AllLineSafe, LineSafe, PlanAppend, Staged, InferProject, FinalRequest, Attestation, Sealed, ReadMapping,
        Appended, FileText, Print, Get;
      ghost var was := History(files, log);
      StepKeepsSound(sha, job, was, FinalizeOp(version, report, now));
      FinalizeOnSound(sha, files, log, job, version, report, now);
      FinalizeKeeps(sha, files, job, version, report, now);
      FinalizeBlames(sha, files, log, job, version, report, now);
      if Finalize(sha, files, job, version, report, now).outcome.Done? {
        FinalizeSnapshot(sha, files, log, job, version, report, now);
      }
      files := Staged(files, report);
      StagedKeepsSound(sha, was, report);
      var project := InferProject(files);
      if ReadMapping(files, "final_report.json").None? || project.None? {
        assert was.log + [] == was.log;
        return Failed(if ReadMapping(files, "final_report.json").None? then DocumentInvalid else InferError(files));
      }
      var r := FinalRequest(files, job, project.value, now);
      outcome := AppendEvent(sha, r);
      if outcome.Failed? {
        assert was.log + [] == was.log;
        return;
      }
      SafeSnoc(was.log, outcome.event);
      var attestation := Attestation(sha, files, version, r, Get(outcome.event.fields, "event_hash"));
      if attestation.None? {
        return Failed(DocumentInvalid);
      }
      files := Sealed(sha, files, attestation.value);
    }
  }

  lemma StagedKeepsSound(sha: Hash, h: History, report: Option<Json>)
    requires Sound(sha, h.files, h.log)
    ensures Sound(sha, Staged(h.files, report), h.log)
  {
    hide Staged, Sound;
    StagedFiles(sha, h.files, h.log, report);
  }
}
