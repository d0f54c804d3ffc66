/** `control_plane.py`: prepare, validate and publish as programs whose steps interleave around one job.
    Each step is one job-store transaction or one effect; a call may raise wherever the source can raise,
    and may stop for ever between any two steps. */
module ControlPlane {
  import opened Text
  import opened Trees
  import opened Runner
  import opened Jobs
  import opened Runs
  import opened Workspaces

  /** The credentials a call got from its own claim. */
  datatype Lease = Lease(owner: string, token: string)

  /** Where a `prepare_task` call stands that created the job. `seen` is a row it read. */
  datatype PreparePoint =
    | PClaim | PPhase | PLook | PCancel | PBuild | PUpdate | PLookAgain(seen: Row) | PCancelAgain(seen: Row)
    | PFinish(seen: Row) | PRecord | PFail | PFailing(seen: Row) | PDone

  datatype ValidatePoint =
    | VBegin | VRead | VReturn | VClaim | VPhase | VStart | VRun | VReadAgain(summary: Summary)
    | VEnd(summary: Summary, seen: Row) | VRecord | VComplete | VFail | VFailing(seen: Row) | VRefuse | VDone

  datatype PublishPoint =
    | BRead | BBegin(ready: bool) | BDiff | BClaim | BPhase | BBeat(i: nat) | BLook(i: nat) | BCopy(i: nat) | BCommit
    | BReadAgain | BEnd(seen: Row) | BRecord | BComplete | BFail | BFailing(seen: Row) | BRefuse | BDone

  /** What a publication does, in order; a copy notes how many foreign writes the source had seen. */
  datatype Act = Entered | Beat | Looked | Copied(path: string, writes: nat) | Committed | Finished

  /** How a keyed call was answered when it began its operation. */
  datatype Answer = NotAsked | GoneAhead | Told(op: Op)

  /** A write to the source by anybody but the publications of this job: a file, or none for a deletion. */
  datatype Write = Write(path: string, data: Option<string>)

  /** The source at a commit, and the foreign writes it had seen. */
  datatype Snapshot = Snapshot(source: Contents, foreign: seq<Write>)

  datatype Proc =
    | Prepare(pp: PreparePoint, lease: Option<Lease>)
    | Validate(vp: ValidatePoint, lease: Option<Lease>, key: Option<string>, answer: Answer, stored: bool)
    | Publish(bp: PublishPoint, lease: Option<Lease>, key: Option<string>, answer: Answer, changes: seq<Change>,
              sourceAtDiff: Contents, since: nat, trace: seq<Act>, commit: Option<Snapshot>)

  function NewValidate(key: Option<string>): Proc { Validate(VBegin, None, key, NotAsked, false) }

  function NewPublish(key: Option<string>): Proc { Publish(BRead, None, key, NotAsked, [], map[], 0, [], None) }

  /** What the outside world contributes to a step. */
  datatype Choice = Choice(now: Time, owner: string, token: string, seconds: int, raises: bool, refuses: bool, beats: bool,
                           files: Contents, changes: seq<Change>, execution: Execution, notes: Changes,
                           place: Option<string>, revision: Option<string>, result: string, code: string, message: string)

  datatype Effect =
    | NoEffect | Builds(files: Contents, revision: Option<string>) | EntersValidation | StartsValidation | Copies(path: string)
    | Begins(k: OpKey) | Finishes(k: OpKey, result: Op)

  datatype Outcome = Outcome(row: Row, proc: Proc, effect: Effect)

  /** One job, its keyed operations, the calls that work on it, its workspace, and the source of its project,
      to which other jobs and hands may write. `hidden` are the patterns of the project, `recorded` is the
      revision at which the workspace was made, and a validate call notes in `stored` that it has stored its
      verdict. The last three fields only record what happened: the workspace
      when validation was entered, the call that entered it, and how often a validation was started. */
  datatype World = World(
    id: string, actions: seq<string>, row: Row, ops: map<OpKey, Op>, procs: map<nat, Proc>, used: set<string>,
    sha: Hash, hidden: Filter, recorded: Option<string>,
    baseline: Contents, workspace: Contents, source: Contents, foreign: seq<Write>,
    frozen: Option<Contents>, validator: Option<nat>, validations: nat)

  // ---------------------------------------------------------------- transactions of a call

  function Transact(row: Row, c: Call): (Row, bool) {
    match Decide(c, row)
    case Refuse(_) => (row, false)
    case Change(after, _) => (after, true)
  }

  /** `_claim`. */
  function Claiming(w: World, from: Status, ch: Choice): (Row, bool) {
    Transact(w.row, ClaimCall(w.id, ch.owner, ch.token, ch.seconds, {from}, ch.now))
  }

  /** `_transition_owned` with the credentials of a row that was read before. */
  function Owned(w: World, seen: Row, target: Status, c: Changes, now: Time): (Row, bool) {
    if seen.worker.None? || seen.token.None? then (w.row, false)
    else Transact(w.row, TransitionCall(w.id, target, seen.worker, seen.token, c, now))
  }

  /** `_transition_owned` with the call's own lease. */
  function Leased(w: World, lease: Option<Lease>, target: Status, now: Time): (Row, bool) {
    if lease.None? then (w.row, false)
    else Transact(w.row, TransitionCall(w.id, target, Some(lease.value.owner), Some(lease.value.token), NO_CHANGES, now))
  }

  /** `_heartbeat`. */
  function Beating(w: World, lease: Option<Lease>, ch: Choice): (Row, bool) {
    if lease.None? then (w.row, false)
    else Transact(w.row, HeartbeatCall(w.id, lease.value.owner, lease.value.token, ch.seconds, ch.now))
  }

  // ---------------------------------------------------------------- keyed operations of a call

  /** The job and its operations as the store has them. */
  function Tables(w: World): State { State(map[w.id := w.row], w.ops, []) }

  /** The operation that a keyed call begins and finishes. */
  function CallKey(id: string, proc: Proc): Option<OpKey> {
    match proc
    case Prepare(_, _) => None
    case Validate(_, _, key, _, _) => if key.Some? then Some(OpKey(id, "validate", key.value)) else None
    case Publish(_, _, key, _, _, _, _, _, _) => if key.Some? then Some(OpKey(id, "publish", key.value)) else None
  }

  /** `begin_idempotent_operation` and `_idempotent_replay`: `None` if the store refuses the key. */
  function Answered(w: World, k: OpKey): Option<Answer> {
    match Begin(Tables(w), k).1
    case Operation(op, replay) => Some(if replay then Told(op) else GoneAhead)
    case _ => None
  }

  function Success(ch: Choice): Op { Op(OpCompleted, Some(ch.result), None, None) }

  function Failure(ch: Choice): Op { Op(OpFailed, None, Some(ch.code), Some(ch.message)) }

  function Closing(w: World, proc: Proc, op: Op): Effect {
    if CallKey(w.id, proc).Some? then Finishes(CallKey(w.id, proc).value, op) else NoEffect
  }

  /** `complete_idempotent_operation` does not raise. */
  predicate CanComplete(w: World, proc: Proc, ch: Choice) {
    !ch.raises && (CallKey(w.id, proc).Some? ==> !Finish(Tables(w), CallKey(w.id, proc).value, Success(ch)).1.Refused?)
  }

  function Texts(c: Changes): Changes { c.(summary := None) }

  // ---------------------------------------------------------------- prepare

  function StepPrepare(w: World, proc: Proc, ch: Choice): (o: Outcome)
    requires proc.Prepare?
    ensures o.proc.Prepare?
  {
    var at := proc.pp;
    match at
    case PClaim =>
      var (row, ok) := Claiming(w, Queued, ch);
      if ok then Outcome(row, Prepare(PPhase, Some(Lease(ch.owner, ch.token))), NoEffect)
      else Outcome(row, proc.(pp := PFail), NoEffect)
    case PPhase =>
      var (row, ok) := Leased(w, proc.lease, Status.Preparing, ch.now);
      Outcome(row, proc.(pp := if ok then PLook else PFail), NoEffect)
    case PLook => Outcome(w.row, proc.(pp := if w.row.cancel then PCancel else PBuild), NoEffect)
    case PCancel => Outcome(Leased(w, proc.lease, Cancelled, ch.now).0, proc.(pp := PFail), NoEffect)
    case PBuild =>
      if ch.raises then Outcome(w.row, proc.(pp := PFail), NoEffect)
      else Outcome(w.row, proc.(pp := PUpdate), Builds(ch.files, ch.revision))
    case PUpdate =>
      if ch.raises then Outcome(w.row, proc.(pp := PFail), NoEffect)
      else
        var notes := w.row.notes.(workspace := ch.place, revision := ch.revision);
        var (row, _) := Transact(w.row, UpdateCall(w.id, Fields(None, None, None, Some(notes))));
        Outcome(row, proc.(pp := PLookAgain(row)), NoEffect)
    case PLookAgain(seen) =>
      Outcome(w.row, proc.(pp := if ch.raises then PFail else if w.row.cancel then PCancelAgain(seen) else PFinish(seen)),
              NoEffect)
    case PCancelAgain(seen) =>
      Outcome(Owned(w, seen, Cancelled, NO_CHANGES, ch.now).0, proc.(pp := PFail), NoEffect)
    case PFinish(seen) =>
      var (row, ok) := Owned(w, seen, Prepared, Texts(ch.notes), ch.now);
      Outcome(row, proc.(pp := if ok then PRecord else PFail), NoEffect)
    case PRecord => Outcome(w.row, proc.(pp := if ch.raises then PFail else PDone), NoEffect)
    case PFail =>
      Outcome(w.row, proc.(pp := if ch.raises || w.row.status == Cancelled then PDone else PFailing(w.row)), NoEffect)
    case PFailing(seen) =>
      var row := if Guarded(seen.status) then Owned(w, seen, Failed, Texts(ch.notes), ch.now).0
                 else Transact(w.row, TransitionCall(w.id, Failed, None, None, Texts(ch.notes), ch.now)).0;
      Outcome(row, proc.(pp := PDone), NoEffect)
    case PDone => Outcome(w.row, proc, NoEffect)
  }

  // ---------------------------------------------------------------- validate

  /** The execution is one the validation loop can produce. */
  ghost predicate Genuine(actions: seq<string>, e: Execution) {
    e.Executed? && exists host: Host :: e == Validation(host, actions)
  }

  /** The summary that is stored: an observed cancellation turns it into a failure. */
  function Final(summary: Summary, cancelled: bool): Summary {
    if cancelled then summary.(passed := false, cancelled := true) else summary
  }

  function FinalStatus(summary: Summary, cancelled: bool): Status {
    if cancelled then Cancelled else if summary.passed then Completed else Failed
  }

  ghost function StepValidate(w: World, proc: Proc, ch: Choice): (o: Outcome)
    requires proc.Validate?
    ensures o.proc.Validate? && o.proc.key == proc.key && (proc.stored ==> o.proc.stored)
  {
    var at := proc.vp;
    match at
    case VBegin =>
      if CallKey(w.id, proc).None? then Outcome(w.row, proc.(vp := VRead), NoEffect)
      else
        var k := CallKey(w.id, proc).value;
        var answer := if ch.raises then None else Answered(w, k);
        if answer == Some(GoneAhead) then Outcome(w.row, proc.(vp := VRead, answer := GoneAhead), Begins(k))
        else Outcome(w.row, proc.(vp := VDone, answer := answer.GetOr(NotAsked)), NoEffect)
    case VRead =>
      if ch.raises then Outcome(w.row, proc.(vp := VDone), NoEffect)
      else if w.row.status == Completed && w.row.summary.Some? then Outcome(w.row, proc.(vp := VReturn), NoEffect)
      else Outcome(w.row, proc.(vp := if w.row.status == Prepared && !ch.refuses then VClaim else VRefuse), NoEffect)
    case VReturn =>
      Outcome(w.row, proc.(vp := VDone), if ch.raises then NoEffect else Closing(w, proc, Success(ch)))
    case VClaim =>
      var (row, ok) := Claiming(w, Prepared, ch);
      if ok then Outcome(row, proc.(vp := VPhase, lease := Some(Lease(ch.owner, ch.token))), NoEffect)
      else Outcome(row, proc.(vp := VFail), NoEffect)
    case VPhase =>
      var (row, ok) := Leased(w, proc.lease, Validating, ch.now);
      if ok then Outcome(row, proc.(vp := VStart), EntersValidation) else Outcome(row, proc.(vp := VFail), NoEffect)
    case VStart => Outcome(w.row, proc.(vp := VRun), StartsValidation)
    case VRun =>
      if ch.raises then Outcome(w.row, proc.(vp := VFail), NoEffect)
      else if ch.beats then
        var (row, ok) := Beating(w, proc.lease, ch);
        Outcome(row, proc.(vp := if ok then VRun else VFail), NoEffect)
      else if Genuine(w.actions, ch.execution) then
        Outcome(w.row, proc.(vp := VReadAgain(Summarize(w.actions, ch.execution))), NoEffect)
      else Outcome(w.row, proc, NoEffect)
    case VReadAgain(summary) => Outcome(w.row, proc.(vp := VEnd(summary, w.row)), NoEffect)
    case VEnd(summary, seen) =>
      var cancelled := summary.cancelled || seen.cancel;
      var changes := ch.notes.(summary := Some(Final(summary, cancelled)));
      var (row, ok) := Owned(w, seen, FinalStatus(summary, cancelled), changes, ch.now);
      if ok then Outcome(row, proc.(vp := VRecord, stored := true), NoEffect) else Outcome(row, proc.(vp := VFail), NoEffect)
    case VRecord => Outcome(w.row, proc.(vp := if ch.raises then VFail else VComplete), NoEffect)
    case VComplete =>
      if CanComplete(w, proc, ch) then Outcome(w.row, proc.(vp := VDone), Closing(w, proc, Success(ch)))
      else Outcome(w.row, proc.(vp := VFail), NoEffect)
    case VFail =>
      Outcome(w.row, proc.(vp := if Guarded(w.row.status) && !ch.raises then VFailing(w.row) else VRefuse), NoEffect)
    case VFailing(seen) =>
      var target := if seen.cancel then Cancelled else RecoveryRequired;
      Outcome(Owned(w, seen, target, Texts(ch.notes), ch.now).0, proc.(vp := VRefuse), NoEffect)
    case VRefuse => Outcome(w.row, proc.(vp := VDone), if ch.raises then NoEffect else Closing(w, proc, Failure(ch)))
    case VDone => Outcome(w.row, proc, NoEffect)
  }

  // ---------------------------------------------------------------- publish

  function CopiedPaths(trace: seq<Act>): seq<string> {
    if trace == [] then [] else
      CopiedPaths(trace[..|trace| - 1]) +
      if trace[|trace| - 1].Copied? then [trace[|trace| - 1].path] else []
  }

  /** `stale_source` with the revision that the source has now. */
  predicate SourceStale(w: World, revision: Option<string>) {
    Stale(Digests(w.sha, w.baseline), Digests(w.sha, Visible(w.source, w.hidden)), w.recorded, revision)
  }

  ghost function StepPublish(w: World, proc: Proc, ch: Choice): (o: Outcome)
    requires proc.Publish?
    ensures o.proc.Publish? && o.proc.key == proc.key && proc.trace <= o.proc.trace
  {
    var at := proc.bp;
    match at
    case BRead => Outcome(w.row, proc.(bp := if ch.raises then BDone else BBegin(w.row.status == Completed)), NoEffect)
    case BBegin(ready) =>
      var next := if ready then BDiff else BRefuse;
      if CallKey(w.id, proc).None? then Outcome(w.row, proc.(bp := next), NoEffect)
      else
        var k := CallKey(w.id, proc).value;
        var answer := if ch.raises then None else Answered(w, k);
        if answer == Some(GoneAhead) then Outcome(w.row, proc.(bp := next, answer := GoneAhead), Begins(k))
        else Outcome(w.row, proc.(bp := BDone, answer := answer.GetOr(NotAsked)), NoEffect)
    case BDiff =>
      if ch.raises || !ExactDiff(w.baseline, w.workspace, ch.changes) || SourceStale(w, ch.revision) then
        Outcome(w.row, proc.(bp := BRefuse), NoEffect)
      else
        Outcome(w.row, proc.(bp := BClaim, changes := ch.changes, sourceAtDiff := w.source, since := |w.foreign|), NoEffect)
    case BClaim =>
      var (row, ok) := Claiming(w, Completed, ch);
      if ok then Outcome(row, proc.(bp := BPhase, lease := Some(Lease(ch.owner, ch.token))), NoEffect)
      else Outcome(row, proc.(bp := BFail), NoEffect)
    case BPhase =>
      var (row, ok) := Leased(w, proc.lease, Publishing, ch.now);
      if ok then Outcome(row, proc.(bp := BBeat(0), trace := proc.trace + [Entered]), NoEffect)
      else Outcome(row, proc.(bp := BFail), NoEffect)
    case BBeat(i) =>
      var (row, ok) := Beating(w, proc.lease, ch);
      if ok then Outcome(row, proc.(bp := BLook(i), trace := proc.trace + [Beat]), NoEffect)
      else Outcome(row, proc.(bp := BFail), NoEffect)
    case BLook(i) =>
      if w.row.cancel then Outcome(w.row, proc.(bp := BFail), NoEffect)
      else Outcome(w.row, proc.(bp := if i < |proc.changes| then BCopy(i) else BCommit, trace := proc.trace + [Looked]), NoEffect)
    case BCopy(i) =>
      if ch.raises || i >= |proc.changes| || proc.changes[i].kind == Deleted || proc.changes[i].path !in w.workspace
      then Outcome(w.row, proc.(bp := BFail), NoEffect)
      else
        var path := proc.changes[i].path;
        Outcome(w.row, proc.(bp := BBeat(i + 1), trace := proc.trace + [Act.Copied(path, |w.foreign|)]), Copies(path))
    case BCommit =>
      if ch.raises then Outcome(w.row, proc.(bp := BFail), NoEffect)
      else
        Outcome(w.row, proc.(bp := BReadAgain, trace := proc.trace + [Committed], commit := Some(Snapshot(w.source, w.foreign))),
                NoEffect)
    case BReadAgain => Outcome(w.row, proc.(bp := BEnd(w.row)), NoEffect)
    case BEnd(seen) =>
      var (row, ok) := Owned(w, seen, Completed, NO_CHANGES, ch.now);
      if ok then Outcome(row, proc.(bp := BRecord, trace := proc.trace + [Finished]), NoEffect)
      else Outcome(row, proc.(bp := BFail), NoEffect)
    case BRecord => Outcome(w.row, proc.(bp := if ch.raises then BFail else BComplete), NoEffect)
    case BComplete =>
      if CanComplete(w, proc, ch) then Outcome(w.row, proc.(bp := BDone), Closing(w, proc, Success(ch)))
      else Outcome(w.row, proc.(bp := BFail), NoEffect)
    case BFail =>
      Outcome(w.row, proc.(bp := if Guarded(w.row.status) && !ch.raises then BFailing(w.row) else BRefuse), NoEffect)
    case BFailing(seen) =>
      var target := if seen.cancel && CopiedPaths(proc.trace) == [] then Cancelled else RecoveryRequired;
      Outcome(Owned(w, seen, target, Texts(ch.notes), ch.now).0, proc.(bp := BRefuse), NoEffect)
    case BRefuse => Outcome(w.row, proc.(bp := BDone), if ch.raises then NoEffect else Closing(w, proc, Failure(ch)))
    case BDone => Outcome(w.row, proc, NoEffect)
  }

  // ---------------------------------------------------------------- the world

  ghost function StepProc(w: World, proc: Proc, ch: Choice): Outcome {
    if proc.Prepare? then StepPrepare(w, proc, ch)
    else if proc.Validate? then StepValidate(w, proc, ch)
    else StepPublish(w, proc, ch)
  }

  predicate ClaimsNext(proc: Proc) {
    if proc.Prepare? then proc.pp.PClaim? else if proc.Validate? then proc.vp.VClaim? else proc.bp.BClaim?
  }

  function Affected(w: World, p: nat, e: Effect): World {
    match e
    case NoEffect => w
    case Builds(files, revision) => w.(baseline := files, workspace := files, recorded := revision)
    case EntersValidation => w.(frozen := Some(w.workspace), validator := Some(p))
    case StartsValidation => w.(validations := w.validations + 1)
    case Copies(path) => if path in w.workspace then w.(source := w.source[path := w.workspace[path]]) else w
    case Begins(k) => w.(ops := Begin(Tables(w), k).0.ops)
    case Finishes(k, op) => if op.state == Started then w else w.(ops := Finish(Tables(w), k, op).0.ops)
  }

  datatype Move =
    | Go(p: nat, ch: Choice)
    | StartValidate(p: nat, key: Option<string>)
    | StartPublish(p: nat, key: Option<string>)
    | Cancel
    | RecoverMove(reason: string, now: Time)
    | RequestDelete(now: Time)
    | EditWorkspace(files: Contents)
    | WriteSource(path: string, data: Option<string>)

  /** One step of anybody: a call on this job, or, in the last move, another job's publication or a hand that
      writes a file of the source. Claim tokens are fresh and not empty; the write gate reads the status and
      changes the workspace in one step. */
  ghost function Advance(w: World, m: Move): World {
    match m
    case Go(p, ch) =>
      if p !in w.procs || (ClaimsNext(w.procs[p]) && (ch.token in w.used || ch.token == "")) then w
      else
        var o := StepProc(w, w.procs[p], ch);
        Affected(w, p, o.effect).(row := o.row, procs := w.procs[p := o.proc],
                                  used := if ClaimsNext(w.procs[p]) then w.used + {ch.token} else w.used)
    case StartValidate(p, key) => if p in w.procs then w else w.(procs := w.procs[p := NewValidate(key)])
    case StartPublish(p, key) => if p in w.procs then w else w.(procs := w.procs[p := NewPublish(key)])
    case Cancel => w.(row := Transact(w.row, CancelCall(w.id)).0)
    case RecoverMove(reason, now) => w.(row := Transact(w.row, RecoverCall(w.id, reason, now)).0)
    case RequestDelete(now) =>
      w.(row := Transact(w.row, TransitionCall(w.id, WaitingForApproval, None, None, NO_CHANGES, now)).0)
    case EditWorkspace(files) =>
      if w.row.status == Prepared || w.row.status == Status.Running then w.(workspace := files) else w
    case WriteSource(path, data) =>
      w.(source := if data.Some? then w.source[path := data.value] else w.source - {path},
         foreign := w.foreign + [Write(path, data)])
  }

  /** A job that `prepare_task` has just created and is about to claim. */
  predicate Initial(w: World) {
    && w.row.status == Queued && LeaseFree(w.row) && !w.row.cancel && w.row.summary.None?
    && w.procs == map[0 := Prepare(PClaim, None)] && w.used == {} && w.ops == map[]
    && w.frozen.None? && w.validator.None? && w.validations == 0
  }

  predicate LeaseFree(row: Row) {
    row.worker.None? && row.token.None? && row.expires.None? && row.heartbeat.None? && row.origin.None?
  }

  ghost function WorldAfter(w: World, moves: seq<Move>): World
    decreases |moves|
  {
    if moves == [] then w else Advance(WorldAfter(w, moves[..|moves| - 1]), moves[|moves| - 1])
  }
}
