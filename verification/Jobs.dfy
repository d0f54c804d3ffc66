/** `jobs.py`: job rows, operation rows and the event log, and what each transaction does to them.
    Times are microseconds; the database keeps them cut to milliseconds (see `Timestamps`). */
module Jobs {
  import opened Text
  import opened Runner

  datatype Status =
    | Queued | Claimed | Preparing | Prepared | Running | Validating | WaitingForApproval
    | Publishing | Completed | Failed | Cancelled | RecoveryRequired

  /** `VALID_TRANSITIONS`. */
  predicate CanMove(from: Status, to: Status) {
    match from
    case Queued => to.Claimed? || to.Failed? || to.Cancelled?
    case Claimed => !to.Claimed?
    case Preparing => to.Prepared? || to.Failed? || to.Cancelled? || to.RecoveryRequired?
    case Prepared => to.Claimed? || to.WaitingForApproval? || to.Failed? || to.Cancelled?
    case Running =>
      to.Validating? || to.WaitingForApproval? || to.Completed? || to.Failed? || to.Cancelled? || to.RecoveryRequired?
    case Validating => to.Completed? || to.Failed? || to.Cancelled? || to.RecoveryRequired?
    case WaitingForApproval => to.Claimed? || to.Failed? || to.Cancelled?
    case Publishing => to.Completed? || to.Failed? || to.Cancelled? || to.RecoveryRequired?
    case Completed => to.Claimed?
    case Failed => false
    case Cancelled => false
    case RecoveryRequired => to.Queued? || to.Failed? || to.Cancelled?
  }

  /** `LEASE_GUARDED_STATUSES`. */
  predicate Guarded(s: Status) { s.Claimed? || s.Preparing? || s.Running? || s.Validating? || s.Publishing? }

  /** `_SAFE_CLAIM_ORIGINS`. */
  predicate SafeOrigin(s: Status) { s.Queued? || s.Prepared? || s.WaitingForApproval? || s.Completed? }

  /** `_IMMEDIATE_CANCEL_STATUSES`. */
  predicate CancelsAtOnce(s: Status) { s.Queued? || s.Prepared? || s.WaitingForApproval? || s.RecoveryRequired? }

  type Time = nat

  function Stored(t: Time): Time { t / 1000 * 1000 }

  function Expiry(now: Time, seconds: nat): Time { Stored(now + seconds * 1_000_000) }

  datatype Notes = Notes(revision: Option<string>, workspace: Option<string>, evidence: Option<string>,
                         errorCode: Option<string>, errorMessage: Option<string>,
                         recoveryReason: Option<string>, lastError: Option<string>)

  datatype Row = Row(
    project: string, request: string, intent: string, risk: string, key: Option<string>,
    status: Status, attempt: nat, cancel: bool,
    worker: Option<string>, token: Option<string>, expires: Option<Time>, heartbeat: Option<Time>,
    origin: Option<Status>, summary: Option<Summary>, notes: Notes)

  datatype EventKind =
    | JobCreated | IdempotencyReplayed | JobClaimed | JobHeartbeat | LeaseRecovered | StatusTransition
    | CancellationRequested | OperationStarted | OperationCompleted | OperationFailed | Other(name: string)

  /** A row of `job_events`; of its details only a lease expiry is kept. */
  datatype Event = Event(kind: EventKind, from: Option<Status>, to: Option<Status>, expires: Option<Time>)

  datatype StoreError =
    | JobNotFound | InvalidTransition | ClaimRequired | NotLeased | LeaseRequired | OwnershipMismatch | LeaseExpired
    | AlreadyClaimed(stale: bool) | NotClaimable | CancelPending | NotRecoverable | NotExpired | AlreadyTerminal
    | InvalidWorker | InvalidLease | InvalidClaimState | InvalidKey | InvalidJobId | InvalidInput
    | InvalidOperation | InvalidEventType | DuplicateJob | KeyConflict | OperationNotFound | OperationAlreadyFailed

  // ---------------------------------------------------------------- what a transaction does to one row

  datatype RowResult = Refuse(error: StoreError) | Change(row: Row, events: seq<Event>)

  /** `_require_active_lease`. */
  function LeaseError(row: Row, worker: Option<string>, token: Option<string>, now: Time): Option<StoreError> {
    if !Guarded(row.status) then Some(NotLeased)
    else if worker.GetOr("") == "" || token.GetOr("") == "" then Some(LeaseRequired)
    else if row.worker != worker || row.token.GetOr("") != token.GetOr("") then Some(OwnershipMismatch)
    else if row.expires.None? || row.expires.value <= now then Some(LeaseExpired)
    else None
  }

  function WithoutLease(row: Row): Row {
    row.(worker := None, token := None, expires := None, heartbeat := None, origin := None)
  }

  function ClaimRow(row: Row, worker: string, token: string, seconds: nat, expected: set<Status>, now: Time): RowResult {
    if Guarded(row.status) then Refuse(AlreadyClaimed(row.expires.Some? && row.expires.value <= now))
    else if row.status !in expected || !SafeOrigin(row.status) then Refuse(NotClaimable)
    else if row.cancel then Refuse(CancelPending)
    else
      Change(row.(status := Claimed, worker := Some(worker), token := Some(token), expires := Some(Expiry(now, seconds)),
                  heartbeat := Some(Stored(now)), attempt := row.attempt + 1, origin := Some(row.status)),
             [Event(JobClaimed, Some(row.status), Some(Claimed), Some(Expiry(now, seconds)))])
  }

  function HeartbeatRow(row: Row, worker: string, token: string, seconds: nat, now: Time): RowResult {
    match LeaseError(row, Some(worker), Some(token), now)
    case Some(e) => Refuse(e)
    case None =>
      Change(row.(heartbeat := Some(Stored(now)), expires := Some(Expiry(now, seconds))),
             [Event(JobHeartbeat, None, None, Some(Expiry(now, seconds)))])
  }

  /** The optional columns a transition may set; a missing one keeps its old value. */
  datatype Changes = Changes(summary: Option<Summary>, evidence: Option<string>, errorCode: Option<string>,
                             errorMessage: Option<string>, recoveryReason: Option<string>, lastError: Option<string>)

  const NO_CHANGES := Changes(None, None, None, None, None, None)

  function OrElse<T>(a: Option<T>, b: Option<T>): Option<T> { if a.Some? then a else b }

  function Noted(row: Row, c: Changes): Row {
    row.(summary := OrElse(c.summary, row.summary),
         notes := row.notes.(evidence := OrElse(c.evidence, row.notes.evidence),
                             errorCode := OrElse(c.errorCode, row.notes.errorCode),
                             errorMessage := OrElse(c.errorMessage, row.notes.errorMessage),
                             recoveryReason := OrElse(c.recoveryReason, row.notes.recoveryReason),
                             lastError := OrElse(c.lastError, row.notes.lastError)))
  }

  /** The row after a transition: only guarded statuses keep their lease. */
  function Moved(row: Row, target: Status, c: Changes): Row {
    var changed := Noted(row, c).(status := target);
    if Guarded(target) then changed else WithoutLease(changed)
  }

  function TransitionRow(row: Row, target: Status, worker: Option<string>, token: Option<string>, c: Changes, now: Time)
    : RowResult
  {
    if !CanMove(row.status, target) then Refuse(InvalidTransition)
    else if Guarded(row.status) && LeaseError(row, worker, token, now).Some? then
      Refuse(LeaseError(row, worker, token, now).value)
    else if Guarded(row.status) && row.cancel && target != Cancelled && target != RecoveryRequired then Refuse(CancelPending)
    else Change(Moved(row, target, c), [Event(StatusTransition, Some(row.status), Some(target), None)])
  }

  function RecoveryTarget(row: Row): Status {
    if row.status == Claimed && SafeOrigin(row.origin.GetOr(Queued))
    then (if row.cancel then Cancelled else row.origin.GetOr(Queued))
    else RecoveryRequired
  }

  function RecoverRow(row: Row, reason: string, now: Time): RowResult {
    if !Guarded(row.status) then Refuse(NotRecoverable)
    else if row.expires.None? || row.expires.value > now then Refuse(NotExpired)
    else
      var target := RecoveryTarget(row);
      Change(WithoutLease(row).(status := target,
                                notes := row.notes.(recoveryReason := Some(reason), lastError := Some(reason))),
             [Event(LeaseRecovered, Some(row.status), Some(target), None)])
  }

  /** A cancelled job answers without any change. */
  function CancelRow(row: Row): RowResult {
    if row.status == Cancelled then Change(row, [])
    else if row.status == Completed || row.status == Failed then Refuse(AlreadyTerminal)
    else
      var flagged := if row.cancel then [] else [Event(CancellationRequested, None, None, None)];
      if CancelsAtOnce(row.status) then
        Change(WithoutLease(row).(cancel := true, status := Cancelled),
               flagged + [Event(StatusTransition, Some(row.status), Some(Cancelled), None)])
      else Change(row.(cancel := true), flagged)
  }

  /** `update`: the columns it may set; a missing one keeps its value, `Some(None)` clears it. */
  datatype Fields = Fields(intent: Option<string>, risk: Option<string>, summary: Option<Option<Summary>>, notes: Option<Notes>)

  predicate NamesFields(f: Fields) { f.intent.Some? || f.risk.Some? || f.summary.Some? || f.notes.Some? }

  const JOB_UPDATED := Event(Other("job_updated"), None, None, None)

  /** An update of no field only reads the row. */
  function UpdateRow(row: Row, f: Fields): RowResult {
    Change(row.(intent := f.intent.GetOr(row.intent), risk := f.risk.GetOr(row.risk),
                summary := f.summary.GetOr(row.summary), notes := f.notes.GetOr(row.notes)),
           if NamesFields(f) then [JOB_UPDATED] else [])
  }

  // ---------------------------------------------------------------- the database

  datatype OpKey = OpKey(job: string, operation: string, key: string)

  datatype OpState = Started | OpCompleted | OpFailed

  datatype Op = Op(state: OpState, result: Option<string>, errorCode: Option<string>, errorMessage: Option<string>)

  datatype Logged = Logged(job: string, event: Event)

  datatype State = State(jobs: map<string, Row>, ops: map<OpKey, Op>, log: seq<Logged>)

  const EMPTY := State(map[], map[], [])

  datatype Reply =
    | Refused(error: StoreError)
    | Job(row: Row)
    | Made(id: string, row: Row, created: bool)
    | Operation(op: Op, replay: bool)
    | Noticed

  function Tag(id: string, events: seq<Event>): (r: seq<Logged>)
    ensures |r| == |events| && forall i :: 0 <= i < |r| ==> r[i] == Logged(id, events[i])
  {
    seq(|events|, i requires 0 <= i < |events| => Logged(id, events[i]))
  }

  /** Commit a decision about one row. */
  function Commit(s: State, id: string, r: RowResult): (State, Reply) {
    match r
    case Refuse(e) => (s, Refused(e))
    case Change(row, events) => (s.(jobs := s.jobs[id := row], log := s.log + Tag(id, events)), Job(row))
  }

  // ---------------------------------------------------------------- argument checks

  predicate IsAlnum(c: char) { 'A' <= c <= 'Z' || 'a' <= c <= 'z' || '0' <= c <= '9' }

  predicate Bounded(t: string, limit: nat, extra: string) {
    1 <= |t| <= limit && IsAlnum(t[0]) && forall i :: 0 <= i < |t| ==> IsAlnum(t[i]) || t[i] in extra
  }

  predicate IsJobId(t: string) { Bounded(t, 80, "_-") }

  predicate IsWorkerId(t: string) { Bounded(t, 200, "._:@/-") }

  predicate IsKey(t: string) { Bounded(t, 200, "._:-") }

  predicate IsOperation(t: string) {
    1 <= |t| <= 64 && 'a' <= t[0] <= 'z' &&
    forall i :: 0 <= i < |t| ==> 'a' <= t[i] <= 'z' || '0' <= t[i] <= '9' || t[i] == '_'
  }

  predicate IsLease(seconds: int) { 1 <= seconds <= 86_400 }

  // ---------------------------------------------------------------- transactions

  /** `create_or_get` receives the project and the request stripped of outer blanks. */
  datatype Draft = Draft(project: string, request: string, intent: string, risk: string, key: Option<string>,
                         revision: Option<string>, workspace: Option<string>, status: Status)

  predicate HasKey(s: State, id: string, project: string, key: string) {
    id in s.jobs && s.jobs[id].project == project && s.jobs[id].key == Some(key)
  }

  ghost function FindKeyed(s: State, project: string, key: string): (r: Option<string>)
    ensures r.Some? ==> HasKey(s, r.value, project, key)
    ensures r.None? ==> forall id :: !HasKey(s, id, project, key)
  {
    if exists id :: HasKey(s, id, project, key) then
      var id :| HasKey(s, id, project, key);
      Some(id)
    else None
  }

  function NewRow(d: Draft): Row {
    Row(d.project, d.request, d.intent, d.risk, d.key, d.status, 0, false, None, None, None, None, None, None,
        Notes(d.revision, d.workspace, None, None, None, None, None))
  }

  /** Replay a keyed request, or insert a new row. */
  function CreateWith(s: State, existing: Option<string>, id: string, d: Draft): (State, Reply)
    requires existing.Some? ==> existing.value in s.jobs
  {
    match existing
    case Some(first) =>
      var row := s.jobs[first];
      if row.request != d.request || row.intent != d.intent then (s, Refused(KeyConflict))
      else (s.(log := s.log + [Logged(first, Event(IdempotencyReplayed, None, None, None))]), Made(first, row, false))
    case None =>
      if id in s.jobs then (s, Refused(DuplicateJob))
      else
        (s.(jobs := s.jobs[id := NewRow(d)], log := s.log + [Logged(id, Event(JobCreated, None, Some(d.status), None))]),
         Made(id, NewRow(d), true))
  }

  ghost function Create(s: State, id: string, d: Draft): (State, Reply) {
    if d.project == "" || d.request == "" then (s, Refused(InvalidInput))
    else if d.key.Some? && !IsKey(d.key.value) then (s, Refused(InvalidKey))
    else if !IsJobId(id) then (s, Refused(InvalidJobId))
    else CreateWith(s, if d.key.Some? then FindKeyed(s, d.project, d.key.value) else None, id, d)
  }

  function Claim(s: State, id: string, worker: string, token: string, seconds: int, expected: set<Status>, now: Time)
    : (State, Reply)
  {
    if !IsWorkerId(worker) then (s, Refused(InvalidWorker))
    else if !IsLease(seconds) then (s, Refused(InvalidLease))
    else if expected == {} then (s, Refused(InvalidClaimState))
    else if id !in s.jobs then (s, Refused(JobNotFound))
    else Commit(s, id, ClaimRow(s.jobs[id], worker, token, seconds, expected, now))
  }

  function Heartbeat(s: State, id: string, worker: string, token: string, seconds: int, now: Time): (State, Reply) {
    if !IsWorkerId(worker) then (s, Refused(InvalidWorker))
    else if !IsLease(seconds) then (s, Refused(InvalidLease))
    else if id !in s.jobs then (s, Refused(JobNotFound))
    else Commit(s, id, HeartbeatRow(s.jobs[id], worker, token, seconds, now))
  }

  function Transition(s: State, id: string, target: Status, worker: Option<string>, token: Option<string>, c: Changes, now: Time)
    : (State, Reply)
  {
    if target == Claimed then (s, Refused(ClaimRequired))
    else if id !in s.jobs then (s, Refused(JobNotFound))
    else Commit(s, id, TransitionRow(s.jobs[id], target, worker, token, c, now))
  }

  function Recover(s: State, id: string, reason: string, now: Time): (State, Reply) {
    if id !in s.jobs then (s, Refused(JobNotFound)) else Commit(s, id, RecoverRow(s.jobs[id], reason, now))
  }

  function RequestCancellation(s: State, id: string): (State, Reply) {
    if id !in s.jobs then (s, Refused(JobNotFound)) else Commit(s, id, CancelRow(s.jobs[id]))
  }

  function Update(s: State, id: string, f: Fields): (State, Reply) {
    if id !in s.jobs then (s, Refused(JobNotFound)) else Commit(s, id, UpdateRow(s.jobs[id], f))
  }

  function RecordEvent(s: State, id: string, e: Event): (State, Reply) {
    if e.kind == Other("") then (s, Refused(InvalidEventType))
    else if id !in s.jobs then (s, Refused(JobNotFound))
    else (s.(log := s.log + [Logged(id, e)]), Noticed)
  }

  function Begin(s: State, k: OpKey): (State, Reply) {
    if !IsOperation(k.operation) then (s, Refused(InvalidOperation))
    else if !IsKey(k.key) then (s, Refused(InvalidKey))
    else if k.job !in s.jobs then (s, Refused(JobNotFound))
    else if k in s.ops then (s, Operation(s.ops[k], true))
    else
      var op := Op(Started, None, None, None);
      (s.(ops := s.ops[k := op], log := s.log + [Logged(k.job, Event(OperationStarted, None, None, None))]),
       Operation(op, false))
  }

  /** `_finish_idempotent_operation`: the first terminal state wins. */
  function Finish(s: State, k: OpKey, op: Op): (State, Reply)
    requires op.state != Started
  {
    if !IsKey(k.key) then (s, Refused(InvalidKey))
    else if k !in s.ops then (s, Refused(OperationNotFound))
    else if s.ops[k].state == OpCompleted then (s, Operation(s.ops[k], true))
    else if s.ops[k].state == OpFailed then
      (s, if op.state == OpFailed then Operation(s.ops[k], true) else Refused(OperationAlreadyFailed))
    else
      var kind := if op.state == OpCompleted then OperationCompleted else OperationFailed;
      (s.(ops := s.ops[k := op], log := s.log + [Logged(k.job, Event(kind, None, None, None))]), Operation(op, false))
  }
}
