/** The invariant of the whole store, and what a caller of each transaction may rely on. */
module StoreInvariant {
  import opened Text
  import opened Runner
  import opened Jobs
  import opened Runs
  import opened Leases
  import opened EventLog
  import opened Fencing
  import opened Cancellation
  import opened KeyedOperations

  /** A row has a whole lease or none, a settled cancellation flag, and a log that tells it. */
  ghost predicate RowSound(s: State, j: string)
    requires j in s.jobs
  {
    LeaseWhole(s.jobs[j]) && FlagSettled(s.jobs[j]) && Tells(Read(History(s.log, j)), s.jobs[j])
  }

  /** Unique keys and no stray events or operations: what the indexes and foreign keys enforce. */
  ghost predicate Indexed(s: State) { UniqueKeys(s) && Closed(s) }

  ghost predicate Sound(s: State) { Indexed(s) && forall j :: j in s.jobs ==> RowSound(s, j) }

  lemma PerformKeepsIndexed(s: State, c: Call)
    requires Indexed(s)
    ensures Indexed(Perform(s, c).0)
  {
    hide Perform, UniqueKeys, Closed;
    StepKeepsUnique(s, c);
    StepClosed(s, c);
  }

  /** Every transaction of a discreet caller keeps the whole store sound. */
  lemma PerformKeepsSound(s: State, c: Call)
    requires Sound(s) && Discreet(c)
    ensures Sound(Perform(s, c).0)
  {
    hide Perform, Indexed, RowSound, Discreet;
    var t := Perform(s, c).0;
    PerformKeepsIndexed(s, c);
    forall j | j in t.jobs ensures RowSound(t, j) {
      if j in s.jobs { OldRowSound(s, c, j); } else { NewRowSound(s, c, j); }
    }
  }

  lemma OldRowSound(s: State, c: Call, j: string)
    requires j in s.jobs && RowSound(s, j) && Discreet(c)
    ensures j in Perform(s, c).0.jobs && RowSound(Perform(s, c).0, j)
  {
    hide Perform, RowStep, LeaseWhole, FlagSettled, Tells, Read;
    var t := Perform(s, c).0;
    var added := EveryRowSteps(s, c, j);
    StepKeepsLease(c, j, s.jobs[j], t.jobs[j], added);
    StepAfterFlag(c, j, s.jobs[j], t.jobs[j], added);
    StepTold(c, j, s.jobs[j], t.jobs[j], added, History(s.log, j));
  }

  lemma NewRowSound(s: State, c: Call, j: string)
    requires Indexed(s) && Discreet(c) && j !in s.jobs && j in Perform(s, c).0.jobs
    ensures RowSound(Perform(s, c).0, j)
  {
    hide Perform, Closed, UniqueKeys, LeaseWhole, Tells, Read, Discreet;
    var t := Perform(s, c).0;
    NewRows(s, c, j);
    DiscreetCreate(c);
    CreateLeaseWhole(c.d);
    NewUnflagged(c.d);
    NewHistory(s, t, j, c.d);
    NewTold(c.d);
  }

  lemma EmptySound()
    ensures Sound(EMPTY)
  {
  }

  /** In every run of discreet callers the whole store is sound. */
  lemma {:induction false} RunsAreSound(calls: seq<Call>)
    requires AllDiscreet(calls)
    ensures Sound(After(calls))
  {
    hide Perform, Sound, Discreet;
    if calls == [] {
      EmptySound();
    } else {
      RunsAreSound(calls[..|calls| - 1]);
      PerformKeepsSound(After(calls[..|calls| - 1]), calls[|calls| - 1]);
    }
  }

  // ---------------------------------------------------------------- what callers may rely on

  /** Nothing but row `id` changes, no operation changes, and the log only grows by events of `id`. */
  predicate OnlyRow(s: State, t: State, id: string) {
    && t.ops == s.ops && t.jobs.Keys == s.jobs.Keys && (forall j :: j in s.jobs && j != id ==> t.jobs[j] == s.jobs[j])
    && s.log <= t.log && forall i :: |s.log| <= i < |t.log| ==> t.log[i].job == id
  }

  /** The row is held with these credentials and may still be written. */
  predicate HeldBy(row: Row, worker: Option<string>, token: Option<string>, now: Time) {
    Guarded(row.status) && row.worker == worker && row.token == token && row.expires.Some? && now < row.expires.value
  }

  /** The whole millisecond at or before `now`. */
  predicate CutTo(t: Option<Time>, now: Time) { t.Some? && t.value % 1000 == 0 && t.value <= now < t.value + 1000 }

  /** The lease runs for the given seconds from now, cut to a millisecond. */
  predicate RunsFor(row: Row, seconds: nat, now: Time) {
    CutTo(row.expires, now + seconds * 1_000_000) && CutTo(row.heartbeat, now)
  }

  /** What no transaction but an update or a creation writes. */
  predicate SameTask(b: Row, a: Row) {
    && a.project == b.project && a.request == b.request && a.intent == b.intent && a.risk == b.risk && a.key == b.key
    && a.notes.revision == b.notes.revision && a.notes.workspace == b.notes.workspace
  }

  /** An optional column holds what was given, or else what it held. */
  predicate Holds<T(==)>(given: Option<T>, was: Option<T>, now: Option<T>) {
    (given.Some? ==> now == given) && (given.None? ==> now == was)
  }

  /** The columns of a transition, each for itself. */
  predicate ColumnsAfter(b: Row, a: Row, c: Changes) {
    && Holds(c.summary, b.summary, a.summary) && Holds(c.evidence, b.notes.evidence, a.notes.evidence)
    && Holds(c.errorCode, b.notes.errorCode, a.notes.errorCode)
    && Holds(c.errorMessage, b.notes.errorMessage, a.notes.errorMessage)
    && Holds(c.recoveryReason, b.notes.recoveryReason, a.notes.recoveryReason)
    && Holds(c.lastError, b.notes.lastError, a.notes.lastError)
  }

  /** The log has grown by these events of one job. */
  predicate Logs(s: State, t: State, id: string, added: seq<Event>) {
    |t.log| == |s.log| + |added| && s.log <= t.log && forall i :: 0 <= i < |added| ==> t.log[|s.log| + i] == Logged(id, added[i])
  }

  /** Between two rows of one job only the status, the lease and the attempt differ. */
  predicate OnlyLeaseMoves(b: Row, a: Row) {
    SameTask(b, a) && a.summary == b.summary && a.notes == b.notes && a.cancel == b.cancel
  }

  predicate Claimable(row: Row, expected: set<Status>) {
    row.status in expected && SafeOrigin(row.status) && !row.cancel
  }

  /** Why a claim is refused. */
  predicate WhyUnclaimed(s: State, id: string, worker: string, seconds: int, expected: set<Status>, now: Time, e: StoreError) {
    if !IsWorkerId(worker) then e == InvalidWorker
    else if seconds < 1 || seconds > 86_400 then e == InvalidLease
    else if expected == {} then e == InvalidClaimState
    else if id !in s.jobs then e == JobNotFound
    else
      var row := s.jobs[id];
      match e
      case AlreadyClaimed(stale) => Guarded(row.status) && (stale <==> row.expires.Some? && row.expires.value <= now)
      case NotClaimable => !Guarded(row.status) && (row.status in expected ==> !SafeOrigin(row.status))
      case CancelPending => row.status in expected && SafeOrigin(row.status) && row.cancel
      case _ => false
  }

  /** Why credentials do not pass as the lease of a row. */
  predicate WhyUnleased(row: Row, worker: Option<string>, token: Option<string>, now: Time, e: StoreError) {
    var given := worker.Some? && worker.value != "" && token.Some? && token.value != "";
    var same := row.worker == worker && row.token.GetOr("") == token.GetOr("");
    match e
    case NotLeased => !Guarded(row.status)
    case LeaseRequired => Guarded(row.status) && !given
    case OwnershipMismatch => Guarded(row.status) && given && !same
    case LeaseExpired => Guarded(row.status) && given && same && (row.expires.Some? ==> row.expires.value <= now)
    case _ => false
  }

  /** Why a transition is refused. */
  predicate WhyUnmoved(s: State, id: string, target: Status, worker: Option<string>, token: Option<string>, now: Time,
                        e: StoreError)
  {
    if target == Claimed then e == ClaimRequired
    else if id !in s.jobs then e == JobNotFound
    else
      var row := s.jobs[id];
      match e
      case InvalidTransition => !Leads(row.status, target)
      case CancelPending => HeldBy(row, worker, token, now) && row.cancel && target != Cancelled && target != RecoveryRequired
      case NotLeased => false
      case _ => Leads(row.status, target) && WhyUnleased(row, worker, token, now, e)
  }

  /** The transition table, read by target. */
  predicate Leads(from: Status, to: Status) {
    match to
    case Claimed => SafeOrigin(from)
    case Queued => from.Claimed? || from.RecoveryRequired?
    case Preparing => from.Claimed?
    case Running => from.Claimed?
    case Publishing => from.Claimed?
    case Validating => from.Claimed? || from.Running?
    case Prepared => from.Claimed? || from.Preparing?
    case WaitingForApproval => from.Claimed? || from.Running? || from.Prepared?
    case Completed => Guarded(from) && !from.Preparing?
    case RecoveryRequired => Guarded(from)
    case Failed => !from.Completed? && !from.Failed? && !from.Cancelled?
    case Cancelled => !from.Completed? && !from.Failed? && !from.Cancelled?
  }

  lemma CommitOnlyRow(s: State, id: string, r: RowResult)
    requires id in s.jobs
    ensures r.Change? ==> Logs(s, Commit(s, id, r).0, id, r.events)
    ensures r.Refuse? ==> Commit(s, id, r).1 == Refused(r.error)
    ensures OnlyRow(s, Commit(s, id, r).0, id)
    ensures Commit(s, id, r).1.Refused? ==> Commit(s, id, r).0 == s
    ensures Commit(s, id, r).1.Job? <==> r.Change?
    ensures r.Change? ==> Commit(s, id, r).0.jobs[id] == r.row && Commit(s, id, r).1.row == r.row
  {
  }

  lemma ClaimFactsFor(s: State, id: string, worker: string, token: string, seconds: int, expected: set<Status>, now: Time)
    ensures var (t, reply) := Claim(s, id, worker, token, seconds, expected, now);
      && OnlyRow(s, t, id) && (reply.Refused? ==> t == s)
      && (reply.Job? <==> IsWorkerId(worker) && IsLease(seconds) && id in s.jobs && Claimable(s.jobs[id], expected))
      && (reply.Refused? ==> WhyUnclaimed(s, id, worker, seconds, expected, now, reply.error))
      && (reply.Job? ==> (
            HeldBy(t.jobs[id], Some(worker), Some(token), now) && RunsFor(t.jobs[id], seconds, now)
            && t.jobs[id].status == Claimed && OnlyLeaseMoves(s.jobs[id], t.jobs[id])
            && t.jobs[id].origin == Some(s.jobs[id].status) && t.jobs[id].attempt == s.jobs[id].attempt + 1
            && reply.row == t.jobs[id]
            && Logs(s, t, id, [Event(JobClaimed, Some(s.jobs[id].status), Some(Claimed), t.jobs[id].expires)])))
  {
    hide IsWorkerId, OnlyRow, Commit, ClaimRow, Guarded, HeldBy, RunsFor, Logs, OnlyLeaseMoves;
    if id in s.jobs && IsLease(seconds) {
      CommitOnlyRow(s, id, ClaimRow(s.jobs[id], worker, token, seconds, expected, now));
      ClaimRowFacts(s.jobs[id], worker, token, seconds, expected, now);
    }
    Unchanged(s, id);
  }

  lemma Unchanged(s: State, id: string)
    ensures OnlyRow(s, s, id)
  {
  }

  lemma ClaimRowFacts(row: Row, worker: string, token: string, seconds: nat, expected: set<Status>, now: Time)
    requires IsLease(seconds)
    ensures var r := ClaimRow(row, worker, token, seconds, expected, now);
      && (r.Change? <==> Claimable(row, expected))
      && (r.Refuse? ==> match r.error
            case AlreadyClaimed(stale) => Guarded(row.status) && (stale <==> row.expires.Some? && row.expires.value <= now)
            case NotClaimable => !Guarded(row.status) && (row.status in expected ==> !SafeOrigin(row.status))
            case CancelPending => row.status in expected && SafeOrigin(row.status) && row.cancel
            case _ => false)
      && (r.Change? ==> (
            HeldBy(r.row, Some(worker), Some(token), now) && RunsFor(r.row, seconds, now)
            && r.row.status == Claimed && OnlyLeaseMoves(row, r.row)
            && r.row.origin == Some(row.status) && r.row.attempt == row.attempt + 1
            && r.events == [Event(JobClaimed, Some(row.status), Some(Claimed), r.row.expires)]))
  {
  }

  lemma HeartbeatFactsFor(s: State, id: string, worker: string, token: string, seconds: int, now: Time)
    ensures var (t, reply) := Heartbeat(s, id, worker, token, seconds, now);
      && OnlyRow(s, t, id) && (reply.Refused? ==> t == s)
      && (reply.Job? ==> (
            id in s.jobs && HeldBy(s.jobs[id], Some(worker), Some(token), now)
            && HeldBy(t.jobs[id], Some(worker), Some(token), now) && RunsFor(t.jobs[id], seconds, now)
            && t.jobs[id] == s.jobs[id].(heartbeat := t.jobs[id].heartbeat, expires := t.jobs[id].expires)
            && reply.row == t.jobs[id] && Logs(s, t, id, [Event(JobHeartbeat, None, None, t.jobs[id].expires)])))
      && (reply.Refused? && IsWorkerId(worker) && IsLease(seconds) && id in s.jobs ==>
            WhyUnleased(s.jobs[id], Some(worker), Some(token), now, reply.error))
      && (reply.Refused? && !(IsWorkerId(worker) && IsLease(seconds) && id in s.jobs) ==>
            reply.error == if !IsWorkerId(worker) then InvalidWorker else if !IsLease(seconds) then InvalidLease else JobNotFound)
      && (IsWorkerId(worker) && IsLease(seconds) && id in s.jobs && LeaseWhole(s.jobs[id]) ==>
            (reply.Job? <==> HeldBy(s.jobs[id], Some(worker), Some(token), now)))
  {
    hide IsWorkerId, OnlyRow, Commit, HeartbeatRow, LeaseWhole, Logs, WhyUnleased, HeldBy, RunsFor;
    if id in s.jobs && IsLease(seconds) && IsWorkerId(worker) {
      CommitOnlyRow(s, id, HeartbeatRow(s.jobs[id], worker, token, seconds, now));
      HeartbeatRowFacts(s.jobs[id], worker, token, seconds, now);
    }
    Unchanged(s, id);
  }

  lemma HeartbeatRowFacts(row: Row, worker: string, token: string, seconds: nat, now: Time)
    requires IsWorkerId(worker) && IsLease(seconds)
    ensures var r := HeartbeatRow(row, worker, token, seconds, now);
      && (r.Change? ==> (
            HeldBy(row, Some(worker), Some(token), now) && HeldBy(r.row, Some(worker), Some(token), now)
            && RunsFor(r.row, seconds, now) && r.row == row.(heartbeat := r.row.heartbeat, expires := r.row.expires)
            && r.events == [Event(JobHeartbeat, None, None, r.row.expires)]))
      && (r.Refuse? ==> WhyUnleased(row, Some(worker), Some(token), now, r.error))
      && (LeaseWhole(row) ==> (r.Change? <==> HeldBy(row, Some(worker), Some(token), now)))
  {
    assert worker != "";
    hide IsWorkerId;
  }

  /** A transition needs the lease of a leased row, and a flagged one only ends or asks for recovery. */
  predicate MayMove(row: Row, target: Status, worker: Option<string>, token: Option<string>, now: Time) {
    && target != Claimed && Leads(row.status, target)
    && (Guarded(row.status) ==> HeldBy(row, worker, token, now) && (row.cancel ==> target == Cancelled || target == RecoveryRequired))
  }

  /** A leased target keeps the lease as it is, any other drops it. */
  predicate LeaseAfterMove(b: Row, a: Row) {
    if Guarded(a.status) then
      a.worker == b.worker && a.token == b.token && a.expires == b.expires && a.heartbeat == b.heartbeat && a.origin == b.origin
    else a.worker.None? && a.token.None? && a.expires.None? && a.heartbeat.None? && a.origin.None?
  }

  lemma TransitionFactsFor(s: State, id: string, target: Status, worker: Option<string>, token: Option<string>, c: Changes, now: Time)
    ensures var (t, reply) := Transition(s, id, target, worker, token, c, now);
      && OnlyRow(s, t, id) && (reply.Refused? ==> t == s)
      && (reply.Job? ==> (
            id in s.jobs && MayMove(s.jobs[id], target, worker, token, now) && t.jobs[id].status == target
            && LeaseAfterMove(s.jobs[id], t.jobs[id]) && t.jobs[id].cancel == s.jobs[id].cancel
            && t.jobs[id].attempt == s.jobs[id].attempt
            && SameTask(s.jobs[id], t.jobs[id]) && ColumnsAfter(s.jobs[id], t.jobs[id], c) && reply.row == t.jobs[id]
            && Logs(s, t, id, [Event(StatusTransition, Some(s.jobs[id].status), Some(target), None)])))
      && (reply.Refused? ==> WhyUnmoved(s, id, target, worker, token, now, reply.error))
      && (id in s.jobs && LeaseWhole(s.jobs[id]) ==> (reply.Job? <==> MayMove(s.jobs[id], target, worker, token, now)))
  {
    hide OnlyRow, Commit, TransitionRow, LeaseWhole, MayMove, LeaseAfterMove, SameTask, ColumnsAfter, Logs, WhyUnleased, HeldBy,
      Leads;
    if id in s.jobs {
      if target != Claimed {
        CommitOnlyRow(s, id, TransitionRow(s.jobs[id], target, worker, token, c, now));
        TransitionRowFacts(s.jobs[id], target, worker, token, c, now);
      } else {
        NoMoveToClaimed(s.jobs[id], worker, token, now);
      }
    }
    Unchanged(s, id);
  }

  lemma NoMoveToClaimed(row: Row, worker: Option<string>, token: Option<string>, now: Time)
    ensures !MayMove(row, Claimed, worker, token, now)
  {
  }

  lemma TransitionRowFacts(row: Row, target: Status, worker: Option<string>, token: Option<string>, c: Changes, now: Time)
    requires target != Claimed
    ensures var r := TransitionRow(row, target, worker, token, c, now);
      && (r.Change? ==> (
            MayMove(row, target, worker, token, now) && r.row.status == target && LeaseAfterMove(row, r.row)
            && r.row.cancel == row.cancel && r.row.attempt == row.attempt
            && SameTask(row, r.row) && ColumnsAfter(row, r.row, c)
            && r.events == [Event(StatusTransition, Some(row.status), Some(target), None)]))
      && (LeaseWhole(row) ==> (r.Change? <==> MayMove(row, target, worker, token, now)))
      && (r.Refuse? ==> match r.error
            case InvalidTransition => !Leads(row.status, target)
            case CancelPending => HeldBy(row, worker, token, now) && row.cancel && target != Cancelled && target != RecoveryRequired
            case NotLeased => false
            case _ => Leads(row.status, target) && WhyUnleased(row, worker, token, now, r.error))
  {
    hide CanMove, Leads;
    TableByTarget(row.status, target);
  }

  /** The table leads to the same statuses whichever way it is read. */
  lemma TableByTarget(from: Status, to: Status)
    ensures CanMove(from, to) <==> Leads(from, to)
  {
  }

  lemma RecoverFactsFor(s: State, id: string, reason: string, now: Time)
    ensures var (t, reply) := Recover(s, id, reason, now);
      && OnlyRow(s, t, id) && (reply.Refused? ==> t == s)
      && (reply.Job? <==> id in s.jobs && Guarded(s.jobs[id].status) && s.jobs[id].expires.Some? && s.jobs[id].expires.value <= now)
      && (reply.Job? ==> (
            !Guarded(t.jobs[id].status) && LeaseAfterMove(s.jobs[id], t.jobs[id]) && ReasonNoted(s.jobs[id], t.jobs[id], reason)
            && reply.row == t.jobs[id]
            && Logs(s, t, id, [Event(LeaseRecovered, Some(s.jobs[id].status), Some(t.jobs[id].status), None)])))
      && (reply.Refused? ==>
            reply.error == if id !in s.jobs then JobNotFound else if !Guarded(s.jobs[id].status) then NotRecoverable else NotExpired)
      && (reply.Job? && LeaseWhole(s.jobs[id]) ==>
            t.jobs[id].status == if s.jobs[id].status != Claimed then RecoveryRequired
                                 else if s.jobs[id].cancel then Cancelled else s.jobs[id].origin.GetOr(Queued))
  {
    hide OnlyRow, Commit, IsLease, Logs, Guarded, LeaseWhole, LeaseAfterMove, ReasonNoted, RecoverRow;
    if id in s.jobs {
      CommitOnlyRow(s, id, RecoverRow(s.jobs[id], reason, now));
      RecoverRowFacts(s.jobs[id], reason, now);
    }
    Unchanged(s, id);
  }

  /** A recovery notes its reason twice and keeps everything else but the status and the lease. */
  predicate ReasonNoted(b: Row, a: Row, reason: string) {
    && SameTask(b, a) && a.summary == b.summary && a.cancel == b.cancel && a.attempt == b.attempt
    && a.notes.recoveryReason == Some(reason) && a.notes.lastError == Some(reason) && a.notes.evidence == b.notes.evidence
    && a.notes.errorCode == b.notes.errorCode && a.notes.errorMessage == b.notes.errorMessage
  }

  lemma RecoverRowFacts(row: Row, reason: string, now: Time)
    ensures var r := RecoverRow(row, reason, now);
      && (r.Change? <==> Guarded(row.status) && row.expires.Some? && row.expires.value <= now)
      && (r.Change? ==> !Guarded(r.row.status) && LeaseAfterMove(row, r.row) && ReasonNoted(row, r.row, reason))
      && (r.Change? ==> r.events == [Event(LeaseRecovered, Some(row.status), Some(r.row.status), None)])
      && (r.Refuse? ==> r.error == if !Guarded(row.status) then NotRecoverable else NotExpired)
      && (r.Change? && LeaseWhole(row) ==>
            r.row.status == if row.status != Claimed then RecoveryRequired
                            else if row.cancel then Cancelled else row.origin.GetOr(Queued))
  {
  }

  lemma CancelFactsFor(s: State, id: string)
    ensures var (t, reply) := RequestCancellation(s, id);
      && OnlyRow(s, t, id) && (reply.Refused? ==> t == s)
      && (reply.Job? <==> id in s.jobs && s.jobs[id].status != Completed && s.jobs[id].status != Failed)
      && (reply.Job? ==> (
            (t.jobs[id].status == Cancelled || t.jobs[id].cancel)
            && t.jobs[id].status == (if Guarded(s.jobs[id].status) then s.jobs[id].status else Cancelled)
            && (Guarded(s.jobs[id].status) ==> t.jobs[id] == s.jobs[id].(cancel := true))
            && (s.jobs[id].status == Cancelled ==> t == s)
            && (s.jobs[id].status != Cancelled && !Guarded(s.jobs[id].status) ==>
                  t.jobs[id].cancel && OnlyLeaseMoves(s.jobs[id].(cancel := true), t.jobs[id])
                  && LeaseAfterMove(s.jobs[id], t.jobs[id]) && t.jobs[id].attempt == s.jobs[id].attempt)
            && reply.row == t.jobs[id] && Logs(s, t, id, CancelEvents(s.jobs[id]))))
      && (reply.Refused? ==> reply.error == if id !in s.jobs then JobNotFound else AlreadyTerminal)
  {
    hide OnlyRow, Commit, Logs, LeaseAfterMove, OnlyLeaseMoves;
    if id in s.jobs {
      CommitOnlyRow(s, id, CancelRow(s.jobs[id]));
      CancelRowFacts(s.jobs[id]);
      NothingChanges(s, id);
    }
    Unchanged(s, id);
  }

  /** A request is logged when it sets the flag, and a job without a lease ends by a transition. */
  function CancelEvents(row: Row): seq<Event> {
    if row.status == Cancelled then [] else
      (if row.cancel then [] else [Event(CancellationRequested, None, None, None)])
      + if Guarded(row.status) then [] else [Event(StatusTransition, Some(row.status), Some(Cancelled), None)]
  }

  lemma CancelRowFacts(row: Row)
    ensures var r := CancelRow(row);
      && (r.Refuse? ==> r.error == AlreadyTerminal)
      && (r.Change? ==> r.events == CancelEvents(row) && (row.status == Cancelled ==> r.row == row))
      && (r.Change? && row.status != Cancelled && !Guarded(row.status) ==>
            r.row.cancel && OnlyLeaseMoves(row.(cancel := true), r.row) && LeaseAfterMove(row, r.row) && r.row.attempt == row.attempt)
  {
  }

  lemma NothingChanges(s: State, id: string)
    requires id in s.jobs
    ensures Commit(s, id, Change(s.jobs[id], [])).0 == s
  {
    assert s.jobs[id := s.jobs[id]] == s.jobs && s.log + Tag(id, []) == s.log;
  }

  lemma UpdateFactsFor(s: State, id: string, f: Fields)
    ensures var (t, reply) := Update(s, id, f);
      && OnlyRow(s, t, id) && (reply.Refused? ==> t == s) && (reply.Job? <==> id in s.jobs)
      && (reply.Job? ==>
            t.jobs[id] == s.jobs[id].(intent := t.jobs[id].intent, risk := t.jobs[id].risk,
                                      summary := t.jobs[id].summary, notes := t.jobs[id].notes)
            && FieldsAfter(s.jobs[id], t.jobs[id], f) && reply.row == t.jobs[id]
            && t.log == s.log + if NamesFields(f) then [Logged(id, JOB_UPDATED)] else [])
  {
    hide OnlyRow;
    if id in s.jobs {
      CommitOnlyRow(s, id, UpdateRow(s.jobs[id], f));
      TagUpdate(id);
      assert s.log + [] == s.log;
    }
    Unchanged(s, id);
  }

  predicate Takes<T(==)>(given: Option<T>, was: T, now: T) {
    (given.Some? ==> now == given.value) && (given.None? ==> now == was)
  }

  /** The columns of an update, each for itself. */
  predicate FieldsAfter(b: Row, a: Row, f: Fields) {
    && Takes(f.intent, b.intent, a.intent) && Takes(f.risk, b.risk, a.risk)
    && Takes(f.summary, b.summary, a.summary) && Takes(f.notes, b.notes, a.notes)
  }

  lemma TagUpdate(id: string)
    ensures Tag(id, []) == [] && Tag(id, [JOB_UPDATED]) == [Logged(id, JOB_UPDATED)]
  {
  }

  // ---------------------------------------------------------------- identifiers

  predicate LetterOrDigit(c: char) { 'a' <= c <= 'z' || 'A' <= c <= 'Z' || '0' <= c <= '9' }

  /** A text of bounded length that starts with a letter or a digit and holds nothing else but some marks. */
  predicate Identifier(t: string, limit: nat, marks: set<char>) {
    1 <= |t| <= limit && LetterOrDigit(t[0]) && forall i :: 0 <= i < |t| ==> LetterOrDigit(t[i]) || t[i] in marks
  }

  lemma BoundedForm(t: string, limit: nat, extra: string, marks: set<char>)
    requires forall c :: c in extra <==> c in marks
    ensures Bounded(t, limit, extra) <==> Identifier(t, limit, marks)
  {
  }

  /** What job ids, keys and workers look like. */
  lemma IdentifierForms(t: string)
    ensures IsJobId(t) <==> Identifier(t, 80, {'_', '-'})
    ensures IsKey(t) <==> Identifier(t, 200, {'_', '-', '.', ':'})
    ensures IsWorkerId(t) <==> Identifier(t, 200, {'_', '-', '.', ':', '@', '/'})
  {
    hide Bounded, Identifier;
    BoundedForm(t, 80, "_-", {'_', '-'});
    BoundedForm(t, 200, "._:-", {'_', '-', '.', ':'});
    BoundedForm(t, 200, "._:@/-", {'_', '-', '.', ':', '@', '/'});
  }

  /** An operation is named by a small letter followed by up to 63 small letters, digits and underscores. */
  lemma OperationForm(t: string)
    ensures IsOperation(t) <==> exists c, rest :: t == [c] + rest && 'a' <= c <= 'z' && |rest| < 64 && SmallRest(rest)
  {
    if IsOperation(t) {
      assert t == [t[0]] + t[1..];
      assert SmallRest(t[1..]);
    }
    if c, rest :| t == [c] + rest && 'a' <= c <= 'z' && |rest| < 64 && SmallRest(rest) {
      assert forall i :: 0 < i < |t| ==> t[i] == rest[i - 1];
    }
  }

  predicate SmallRest(rest: string) {
    forall i :: 0 <= i < |rest| ==> 'a' <= rest[i] <= 'z' || '0' <= rest[i] <= '9' || rest[i] == '_'
  }

  // ---------------------------------------------------------------- who could break the store

  /** A claim with an empty token is the only claim that breaks the store. */
  lemma ClaimSound(s: State, c: Call)
    requires Sound(s) && c.ClaimCall?
    ensures Sound(Perform(s, c).0) <==> Perform(s, c).1.Refused? || c.secret != ""
  {
    hide Perform, Sound, RowSound, Indexed;
    ClaimFactsFor(s, c.id, c.owner, c.secret, c.seconds, c.expected, c.now);
    PerformClaim(s, c);
    if c.secret != "" || Perform(s, c).1.Refused? {
      if c.secret != "" { PerformKeepsSound(s, c); }
    } else {
      TokenlessUnsound(Perform(s, c).0, c.id);
    }
  }

  lemma PerformClaim(s: State, c: Call)
    requires c.ClaimCall?
    ensures Perform(s, c) == Claim(s, c.id, c.owner, c.secret, c.seconds, c.expected, c.now)
    ensures Perform(s, c).1.Refused? || Perform(s, c).1.Job?
  {
    hide ClaimRow;
  }

  lemma TokenlessUnsound(s: State, id: string)
    requires id in s.jobs && Guarded(s.jobs[id].status) && s.jobs[id].token == Some("")
    ensures !Sound(s)
  {
    hide Indexed, Tells, Read, FlagSettled;
    assert !RowSound(s, id);
  }

  /** A job created in a leased status is the only creation that breaks the store. */
  lemma CreateSound(s: State, c: Call)
    requires Sound(s) && c.CreateCall?
    ensures Sound(Perform(s, c).0) <==> (Perform(s, c).1.Made? && Perform(s, c).1.created ==> !Guarded(c.d.status))
  {
    hide Sound, RowSound, Indexed, IsKey, IsJobId, FindKeyed;
    if !Guarded(c.d.status) {
      PerformKeepsSound(s, c);
    } else if Perform(s, c).1.Made? && Perform(s, c).1.created {
      LeasedUnsound(Perform(s, c).0, c.id, c.d);
    } else {
      PerformKeepsSound(s, c.(d := c.d.(status := Queued)));
    }
  }

  lemma LeasedUnsound(s: State, id: string, d: Draft)
    requires id in s.jobs && s.jobs[id] == NewRow(d) && Guarded(d.status)
    ensures !Sound(s)
  {
    hide Indexed, Tells, Read, FlagSettled;
    assert !RowSound(s, id);
  }

  /** An event that tells something untrue about the job is the only one that breaks the store. */
  lemma EventSound(s: State, id: string, e: Event)
    requires Sound(s)
    ensures Sound(RecordEvent(s, id, e).0) <==> (RecordEvent(s, id, e).1.Noticed? ==> Harmless(s.jobs[id], e))
  {
    hide Perform, Sound, RowSound, Harmless, Indexed;
    var t := RecordEvent(s, id, e).0;
    if RecordEvent(s, id, e).1.Noticed? {
      PerformEvent(s, id, e);
      PerformKeepsIndexed(s, EventCall(id, e)) by { SoundIndexed(s); }
      forall j | j in s.jobs ensures RowSound(t, j) <==> (j == id ==> Harmless(s.jobs[id], e)) { EventRowSound(s, id, e, j); }
      SoundMeans(t);
    }
  }

  lemma PerformEvent(s: State, id: string, e: Event)
    ensures Perform(s, EventCall(id, e)) == RecordEvent(s, id, e)
  {
  }

  lemma SoundIndexed(s: State)
    requires Sound(s)
    ensures Indexed(s)
  {
    hide Indexed;
  }

  lemma SoundMeans(s: State)
    ensures Sound(s) <==> Indexed(s) && forall j :: j in s.jobs ==> RowSound(s, j)
  {
    hide Indexed, RowSound;
  }

  lemma EventRowSound(s: State, id: string, e: Event, j: string)
    requires j in s.jobs && id in s.jobs && Sound(s)
    ensures var t := s.(log := s.log + [Logged(id, e)]);
      RowSound(t, j) <==> (j == id ==> Harmless(s.jobs[id], e))
  {
    hide Indexed, LeaseWhole, FlagSettled, Tells, Harmless, ReadOne;
    assert RowSound(s, j);
    hide Sound;
    var added := LogStep(s, id, e, j);
    var past := History(s.log, j);
    if j == id {
      assert (past + [e])[..|past|] == past;
      RecordedEventFaithful(Read(past), s.jobs[j], e);
    } else {
      assert past + [] == past;
    }
  }

  /** A job as it was asked for: nobody has worked on it. */
  predicate IsFresh(row: Row, d: Draft) {
    && row.project == d.project && row.request == d.request && row.intent == d.intent && row.risk == d.risk && row.key == d.key
    && row.status == d.status && row.attempt == 0 && !row.cancel && row.summary.None?
    && row.worker.None? && row.token.None? && row.expires.None? && row.heartbeat.None? && row.origin.None?
    && row.notes.revision == d.revision && row.notes.workspace == d.workspace && row.notes.evidence.None?
    && row.notes.errorCode.None? && row.notes.errorMessage.None? && row.notes.recoveryReason.None? && row.notes.lastError.None?
  }

  /** Why a creation is refused. */
  ghost predicate WhyUncreated(s: State, id: string, d: Draft, e: StoreError) {
    match e
    case InvalidInput => d.project == "" || d.request == ""
    case InvalidKey => d.key.Some? && !IsKey(d.key.value)
    case InvalidJobId => !IsJobId(id)
    case KeyConflict =>
      d.key.Some? && exists j :: HasKey(s, j, d.project, d.key.value) && (s.jobs[j].request != d.request || s.jobs[j].intent != d.intent)
    case DuplicateJob => id in s.jobs && (d.key.Some? ==> forall j :: !HasKey(s, j, d.project, d.key.value))
    case _ => false
  }

  lemma CreateRefusals(s: State, id: string, d: Draft)
    ensures var reply := Create(s, id, d).1; reply.Refused? ==> WhyUncreated(s, id, d, reply.error)
  {
    hide IsKey, IsJobId;
  }

  lemma CreateFactsFor(s: State, id: string, d: Draft)
    ensures var (t, reply) := Create(s, id, d);
      && t.ops == s.ops && (reply.Refused? ==> t == s) && (reply.Refused? || reply.Made?)
      && (forall j :: j in s.jobs ==> j in t.jobs && t.jobs[j] == s.jobs[j])
      && (reply.Made? ==> (
            reply.id in t.jobs && t.jobs[reply.id] == reply.row && reply.row.request == d.request
            && reply.row.intent == d.intent && reply.row.project == d.project && reply.row.key == d.key
            && (reply.created <==> reply.id !in s.jobs)
            && (if reply.created then reply.id == id && IsFresh(reply.row, d) && Logs(s, t, id, [Event(JobCreated, None, Some(d.status), None)])
                else Logs(s, t, reply.id, [Event(IdempotencyReplayed, None, None, None)]))
            && t.jobs.Keys == s.jobs.Keys + (if reply.created then {id} else {})))
  {
    hide IsKey, IsJobId;
  }

  /** The stored operation is answered as it is; a new one starts. */
  lemma BeginFactsFor(s: State, k: OpKey)
    ensures var (t, reply) := Begin(s, k);
      && t.jobs == s.jobs && (reply.Refused? ==> t == s) && (reply.Operation? && reply.replay ==> t == s)
      && (reply.Operation? ==> (
            k in t.ops && t.ops[k] == reply.op && (reply.replay <==> k in s.ops) && (!reply.replay ==> reply.op.state == Started)
            && t.ops == s.ops[k := reply.op]
            && (!reply.replay ==> reply.op == Op(Started, None, None, None) && Logs(s, t, k.job, [Event(OperationStarted, None, None, None)]))))
      && (reply.Refused? ==>
            reply.error == if !IsOperation(k.operation) then InvalidOperation else if !IsKey(k.key) then InvalidKey else JobNotFound)
      && (reply.Refused? <==> !IsOperation(k.operation) || !IsKey(k.key) || k.job !in s.jobs)
  {
    hide IsKey, IsOperation;
    if k in s.ops { assert s.ops == s.ops[k := s.ops[k]]; }
  }

  /** A terminal operation never changes, and a started one takes the state it is given. */
  lemma FinishFactsFor(s: State, k: OpKey, op: Op)
    requires op.state != Started
    ensures var (t, reply) := Finish(s, k, op);
      && t.jobs == s.jobs && (reply.Refused? ==> t == s)
      && (k in s.ops && s.ops[k].state != Started ==> t == s)
      && (reply.Operation? ==> (
            k in s.ops && t.ops == s.ops[k := reply.op] && (reply.replay <==> s.ops[k].state != Started)
            && reply.op == (if reply.replay then s.ops[k] else op)
            && (!reply.replay ==>
                  Logs(s, t, k.job, [Event(if op.state == OpCompleted then OperationCompleted else OperationFailed, None, None, None)]))))
      && (reply.Refused? ==>
            reply.error == if !IsKey(k.key) then InvalidKey else if k !in s.ops then OperationNotFound else OperationAlreadyFailed)
      && (reply.Refused? <==>
            !IsKey(k.key) || k !in s.ops || (s.ops[k].state == OpFailed && op.state == OpCompleted))
  {
    hide IsKey;
    if k in s.ops { assert s.ops == s.ops[k := s.ops[k]]; }
  }

  /** A transaction that is no creation, no claim and no recorded event cannot break the store. */
  lemma QuietSound(s: State, c: Call)
    requires Indexed(s) && !c.CreateCall? && !c.ClaimCall? && !c.EventCall?
    ensures Indexed(Perform(s, c).0) && (Sound(s) ==> Sound(Perform(s, c).0))
  {
    hide Perform, Sound, Indexed;
    PerformKeepsIndexed(s, c);
    if Sound(s) { PerformKeepsSound(s, c); }
  }
}
