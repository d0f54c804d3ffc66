/** The job store as an object: every method is one transaction on its three tables. What each method does to
    all three is the transaction of `Jobs`; what a caller may rely on is stated beside it. */
module JobStore {
  import opened Text
  import opened Runner
  import opened Jobs
  import opened Runs
  import opened Leases
  import opened EventLog
  import opened Fencing
  import opened Cancellation
  import opened KeyedOperations
  import opened StoreInvariant

  lemma TagNone(id: string)
    ensures Tag(id, []) == []
  {
  }

  lemma TagOne(id: string, e: Event)
    ensures Tag(id, [e]) == [Logged(id, e)]
  {
  }

  lemma TagSnoc(id: string, events: seq<Event>, e: Event)
    ensures Tag(id, events + [e]) == Tag(id, events) + [Logged(id, e)]
  {
  }

  class JobStore {
    var jobs: map<string, Row>
    var ops: map<OpKey, Op>
    var log: seq<Logged>

    function View(): State reads this { State(jobs, ops, log) }

    /** What the indexes and foreign keys enforce against every caller. */
    ghost predicate Valid() reads this { Indexed(View()) }

    /** Moreover, every row has a whole lease or none, a settled flag, and a history that tells it. */
    ghost predicate Consistent() reads this { Sound(View()) }

    constructor ()
      ensures Valid() && Consistent() && View() == EMPTY
    {
      jobs, ops, log := map[], map[], [];
      new;
      EmptySound();
    }

    method CreateOrGet(id: string, d: Draft) returns (reply: Reply)
      requires Valid()
      modifies this
      ensures Valid() && (View(), reply) == Create(old(View()), id, d)
      ensures old(Consistent()) ==> (Consistent() <==> (reply.Made? && reply.created ==> !Guarded(d.status)))
      ensures ops == old(ops) && forall j :: j in old(jobs) ==> j in jobs && jobs[j] == old(jobs)[j]
      ensures reply.Refused? ==> View() == old(View())
      ensures reply.Made? ==>
        reply.id in jobs && jobs[reply.id] == reply.row && (reply.created <==> reply.id !in old(jobs))
        && reply.row.project == d.project && reply.row.key == d.key
        && reply.row.request == d.request && reply.row.intent == d.intent
      ensures reply.Made? && reply.created ==>
        reply.id == id && IsFresh(jobs[id], d) && Logs(old(View()), View(), id, [Event(JobCreated, None, Some(d.status), None)])
      ensures reply.Made? && !reply.created ==>
        jobs == old(jobs) && Logs(old(View()), View(), reply.id, [Event(IdempotencyReplayed, None, None, None)])
      ensures reply.Refused? ==> WhyUncreated(old(View()), id, d, reply.error)
      ensures d.key.Some? ==> forall a, b :: HasKey(View(), a, d.project, d.key.value) && HasKey(View(), b, d.project, d.key.value) ==> a == b
    {
      hide IsJobId, IsKey, UniqueKeys, Closed, Sound, FindKeyed, IsFresh, Logs, WhyUncreated;
      CreateRefusals(View(), id, d);
      ghost var c := CreateCall(id, d);
      PerformKeepsIndexed(View(), c);
      CreateFactsFor(View(), id, d);
      if Sound(View()) { CreateSound(View(), c); }
      KeysDiffer(Create(View(), id, d).0);
      if d.project == "" || d.request == "" {
        return Refused(InvalidInput);
      }
      if d.key.Some? && !IsKey(d.key.value) {
        return Refused(InvalidKey);
      }
      if !IsJobId(id) {
        return Refused(InvalidJobId);
      }
      if d.key.Some? {
        var hits := set i | i in jobs && jobs[i].project == d.project && jobs[i].key == d.key;
        if hits != {} {
          var first :| first in hits;
          SameHit(View(), first, d.project, d.key.value);
          var row := jobs[first];
          if row.request != d.request || row.intent != d.intent {
            return Refused(KeyConflict);
          }
          log := log + [Logged(first, Event(IdempotencyReplayed, None, None, None))];
          return Made(first, row, false);
        }
        NoHit(View(), d.project, d.key.value, hits);
      }
      if id in jobs {
        return Refused(DuplicateJob);
      }
      jobs := jobs[id := NewRow(d)];
      log := log + [Logged(id, Event(JobCreated, None, Some(d.status), None))];
      reply := Made(id, NewRow(d), true);
    }

    /** One UPDATE of a row and one INSERT of an event. */
    method Save(id: string, row: Row, event: Event)
      requires id in jobs
      modifies this`jobs, this`log
      ensures View() == Commit(old(View()), id, Change(row, [event])).0
    {
      jobs := jobs[id := row];
      log := log + [Logged(id, event)];
      TagOne(id, event);
    }

    /** A claim succeeds exactly on a claimable job and gives it to this worker and token alone. */
    method ClaimJob(id: string, worker: string, token: string, seconds: int, expected: set<Status>, now: Time)
      returns (reply: Reply)
      requires Valid()
      modifies this
      ensures Valid() && (View(), reply) == Claim(old(View()), id, worker, token, seconds, expected, now)
      ensures old(Consistent()) ==> (Consistent() <==> reply.Refused? || token != "")
      ensures OnlyRow(old(View()), View(), id) && (reply.Refused? ==> View() == old(View()))
      ensures reply.Job? <==>
        IsWorkerId(worker) && 1 <= seconds <= 86_400 && id in old(jobs) && Claimable(old(jobs)[id], expected)
      ensures reply.Job? ==>
        HeldBy(jobs[id], Some(worker), Some(token), now) && RunsFor(jobs[id], seconds, now) && reply.row == jobs[id]
        && jobs[id].attempt == old(jobs)[id].attempt + 1 && jobs[id].origin == Some(old(jobs)[id].status)
        && jobs[id].status == Claimed && OnlyLeaseMoves(old(jobs)[id], jobs[id])
        && Logs(old(View()), View(), id, [Event(JobClaimed, Some(old(jobs)[id].status), Some(Claimed), jobs[id].expires)])
      ensures reply.Refused? ==> WhyUnclaimed(old(View()), id, worker, seconds, expected, now, reply.error)
    {
      hide IsWorkerId, Guarded, SafeOrigin, Indexed, Sound, OnlyRow, HeldBy, RunsFor, Claimable, Tag, WhyUnclaimed, Logs,
        OnlyLeaseMoves;
      ghost var c := ClaimCall(id, worker, token, seconds, expected, now);
      PerformKeepsIndexed(View(), c);
      ClaimFactsFor(View(), id, worker, token, seconds, expected, now);
      if Sound(View()) { ClaimSound(View(), c); }
      if !IsWorkerId(worker) {
        return Refused(InvalidWorker);
      }
      if !IsLease(seconds) {
        return Refused(InvalidLease);
      }
      if expected == {} {
        return Refused(InvalidClaimState);
      }
      if id !in jobs {
        return Refused(JobNotFound);
      }
      var row := jobs[id];
      if Guarded(row.status) {
        return Refused(AlreadyClaimed(row.expires.Some? && row.expires.value <= now));
      }
      if row.status !in expected || !SafeOrigin(row.status) {
        return Refused(NotClaimable);
      }
      if row.cancel {
        return Refused(CancelPending);
      }
      var expires := Expiry(now, seconds);
      Save(id, row.(status := Claimed, worker := Some(worker), token := Some(token), expires := Some(expires),
                    heartbeat := Some(Stored(now)), attempt := row.attempt + 1, origin := Some(row.status)),
           Event(JobClaimed, Some(row.status), Some(Claimed), Some(expires)));
      reply := Job(jobs[id]);
    }

    /** A heartbeat needs the lease, and in a consistent store the lease is enough. */
    method HeartbeatJob(id: string, worker: string, token: string, seconds: int, now: Time) returns (reply: Reply)
      requires Valid()
      modifies this
      ensures Valid() && (View(), reply) == Heartbeat(old(View()), id, worker, token, seconds, now)
      ensures old(Consistent()) ==> Consistent()
      ensures OnlyRow(old(View()), View(), id) && (reply.Refused? ==> View() == old(View()))
      ensures reply.Job? ==>
        id in old(jobs) && HeldBy(old(jobs)[id], Some(worker), Some(token), now)
        && HeldBy(jobs[id], Some(worker), Some(token), now) && RunsFor(jobs[id], seconds, now)
        && jobs[id] == old(jobs)[id].(heartbeat := jobs[id].heartbeat, expires := jobs[id].expires) && reply.row == jobs[id]
        && Logs(old(View()), View(), id, [Event(JobHeartbeat, None, None, jobs[id].expires)])
      ensures reply.Refused? ==>
        if !IsWorkerId(worker) then reply.error == InvalidWorker
        else if seconds < 1 || seconds > 86_400 then reply.error == InvalidLease
        else if id !in old(jobs) then reply.error == JobNotFound
        else WhyUnleased(old(jobs)[id], Some(worker), Some(token), now, reply.error)
      ensures old(Consistent()) && IsWorkerId(worker) && 1 <= seconds <= 86_400 && id in old(jobs) ==>
        (reply.Job? <==> HeldBy(old(jobs)[id], Some(worker), Some(token), now))
    {
      hide IsWorkerId, LeaseError, Indexed, Sound, OnlyRow, HeldBy, RunsFor, LeaseWhole, Tag, Logs, WhyUnleased;
      QuietSound(View(), HeartbeatCall(id, worker, token, seconds, now));
      HeartbeatFactsFor(View(), id, worker, token, seconds, now);
      RowWhole(View(), id);
      if !IsWorkerId(worker) {
        return Refused(InvalidWorker);
      }
      if !IsLease(seconds) {
        return Refused(InvalidLease);
      }
      if id !in jobs {
        return Refused(JobNotFound);
      }
      var refusal := LeaseError(jobs[id], Some(worker), Some(token), now);
      if refusal.Some? {
        return Refused(refusal.value);
      }
      var expires := Expiry(now, seconds);
      Save(id, jobs[id].(heartbeat := Some(Stored(now)), expires := Some(expires)),
           Event(JobHeartbeat, None, None, Some(expires)));
      reply := Job(jobs[id]);
    }

    /** A leased job moves only by its lease, a flagged one only to its end or to recovery. */
    method TransitionJob(id: string, target: Status, worker: Option<string>, token: Option<string>, c: Changes, now: Time)
      returns (reply: Reply)
      requires Valid()
      modifies this
      ensures Valid() && (View(), reply) == Transition(old(View()), id, target, worker, token, c, now)
      ensures old(Consistent()) ==> Consistent()
      ensures OnlyRow(old(View()), View(), id) && (reply.Refused? ==> View() == old(View()))
      ensures reply.Job? ==>
        id in old(jobs) && MayMove(old(jobs)[id], target, worker, token, now) && jobs[id].status == target
        && LeaseAfterMove(old(jobs)[id], jobs[id]) && jobs[id].cancel == old(jobs)[id].cancel
        && jobs[id].attempt == old(jobs)[id].attempt
        && SameTask(old(jobs)[id], jobs[id]) && ColumnsAfter(old(jobs)[id], jobs[id], c) && reply.row == jobs[id]
        && Logs(old(View()), View(), id, [Event(StatusTransition, Some(old(jobs)[id].status), Some(target), None)])
      ensures reply.Refused? ==> WhyUnmoved(old(View()), id, target, worker, token, now, reply.error)
      ensures old(Consistent()) && id in old(jobs) ==>
        (reply.Job? <==> MayMove(old(jobs)[id], target, worker, token, now))
    {
      hide LeaseError, Guarded, CanMove, Moved, Indexed, Sound, OnlyRow, MayMove, LeaseAfterMove, LeaseWhole, Tag, Logs, SameTask,
        ColumnsAfter, WhyUnmoved;
      QuietSound(View(), TransitionCall(id, target, worker, token, c, now));
      TransitionFactsFor(View(), id, target, worker, token, c, now);
      RowWhole(View(), id);
      if target == Claimed {
        return Refused(ClaimRequired);
      }
      if id !in jobs {
        return Refused(JobNotFound);
      }
      var row := jobs[id];
      if !CanMove(row.status, target) {
        return Refused(InvalidTransition);
      }
      if Guarded(row.status) {
        var refusal := LeaseError(row, worker, token, now);
        if refusal.Some? {
          return Refused(refusal.value);
        }
        if row.cancel && target != Cancelled && target != RecoveryRequired {
          return Refused(CancelPending);
        }
      }
      Save(id, Moved(row, target, c), Event(StatusTransition, Some(row.status), Some(target), None));
      reply := Job(jobs[id]);
    }

    /** Recovery needs an expired lease and drops it; work that entered a phase is left for review. */
    method RecoverExpired(id: string, reason: string, now: Time) returns (reply: Reply)
      requires Valid()
      modifies this
      ensures Valid() && (View(), reply) == Recover(old(View()), id, reason, now)
      ensures old(Consistent()) ==> Consistent()
      ensures OnlyRow(old(View()), View(), id) && (reply.Refused? ==> View() == old(View()))
      ensures reply.Job? <==>
        id in old(jobs) && Guarded(old(jobs)[id].status) && old(jobs)[id].expires.Some? && old(jobs)[id].expires.value <= now
      ensures reply.Job? ==>
        !Guarded(jobs[id].status) && LeaseAfterMove(old(jobs)[id], jobs[id]) && ReasonNoted(old(jobs)[id], jobs[id], reason)
        && reply.row == jobs[id]
        && Logs(old(View()), View(), id, [Event(LeaseRecovered, Some(old(jobs)[id].status), Some(jobs[id].status), None)])
      ensures reply.Refused? ==>
        reply.error == if id !in old(jobs) then JobNotFound else if !Guarded(old(jobs)[id].status) then NotRecoverable else NotExpired
      ensures old(Consistent()) && reply.Job? ==>
        jobs[id].status == if old(jobs)[id].status != Claimed then RecoveryRequired
                           else if old(jobs)[id].cancel then Cancelled else old(jobs)[id].origin.GetOr(Queued)
    {
      hide Guarded, SafeOrigin, Indexed, Sound, OnlyRow, LeaseAfterMove, LeaseWhole, Tag, Logs, ReasonNoted;
      QuietSound(View(), RecoverCall(id, reason, now));
      RecoverFactsFor(View(), id, reason, now);
      RowWhole(View(), id);
      if id !in jobs {
        return Refused(JobNotFound);
      }
      var row := jobs[id];
      if !Guarded(row.status) {
        return Refused(NotRecoverable);
      }
      if row.expires.None? || row.expires.value > now {
        return Refused(NotExpired);
      }
      var origin := row.origin.GetOr(Queued);
      var target := RecoveryRequired;
      if row.status == Claimed && SafeOrigin(origin) {
        target := if row.cancel then Cancelled else origin;
      }
      Save(id, WithoutLease(row).(status := target,
                                  notes := row.notes.(recoveryReason := Some(reason), lastError := Some(reason))),
           Event(LeaseRecovered, Some(row.status), Some(target), None));
      reply := Job(jobs[id]);
    }

    /** A leased job is only flagged, any other that is not over is cancelled at once. */
    method CancelJob(id: string) returns (reply: Reply)
      requires Valid()
      modifies this
      ensures Valid() && (View(), reply) == RequestCancellation(old(View()), id)
      ensures old(Consistent()) ==> Consistent()
      ensures OnlyRow(old(View()), View(), id) && (reply.Refused? ==> View() == old(View()))
      ensures reply.Job? <==> id in old(jobs) && old(jobs)[id].status != Completed && old(jobs)[id].status != Failed
      ensures reply.Job? ==>
        (jobs[id].status == Cancelled || jobs[id].cancel)
        && jobs[id].status == (if Guarded(old(jobs)[id].status) then old(jobs)[id].status else Cancelled)
        && (Guarded(old(jobs)[id].status) ==> jobs[id] == old(jobs)[id].(cancel := true))
        && (old(jobs)[id].status == Cancelled ==> View() == old(View()))
        && (old(jobs)[id].status != Cancelled && !Guarded(old(jobs)[id].status) ==>
              jobs[id].cancel && OnlyLeaseMoves(old(jobs)[id].(cancel := true), jobs[id])
              && LeaseAfterMove(old(jobs)[id], jobs[id]) && jobs[id].attempt == old(jobs)[id].attempt)
        && reply.row == jobs[id] && Logs(old(View()), View(), id, CancelEvents(old(jobs)[id]))
      ensures reply.Refused? ==> reply.error == if id !in old(jobs) then JobNotFound else AlreadyTerminal
    {
      hide CancelsAtOnce, Guarded, Indexed, Sound, OnlyRow, Tag, Perform, Logs, OnlyLeaseMoves, LeaseAfterMove, CancelEvents;
      QuietSound(View(), CancelCall(id));
      PerformCancel(View(), id);
      CancelFactsFor(View(), id);
      if id !in jobs {
        return Refused(JobNotFound);
      }
      var row := jobs[id];
      ghost var was := View();
      TagNone(id);
      if row.status == Cancelled {
        assert jobs == jobs[id := row];
        assert log + [] == log;
        return Job(row);
      }
      if row.status == Completed || row.status == Failed {
        return Refused(AlreadyTerminal);
      }
      ghost var flagged := if row.cancel then [] else [Event(CancellationRequested, None, None, None)];
      if !row.cancel {
        jobs := jobs[id := row.(cancel := true)];
        log := log + [Logged(id, Event(CancellationRequested, None, None, None))];
      }
      TagOne(id, Event(CancellationRequested, None, None, None));
      assert jobs == was.jobs[id := row.(cancel := true)];
      assert log == was.log + Tag(id, flagged);
      if CancelsAtOnce(row.status) {
        ghost var e := Event(StatusTransition, Some(row.status), Some(Cancelled), None);
        jobs := jobs[id := WithoutLease(jobs[id]).(status := Cancelled)];
        log := log + [Logged(id, Event(StatusTransition, Some(row.status), Some(Cancelled), None))];
        TagSnoc(id, flagged, e);
        assert log == was.log + Tag(id, flagged + [e]);
      }
      assert jobs == was.jobs[id := jobs[id]];
      reply := Job(jobs[id]);
    }

    /** An update touches neither status nor lease, attempt or flag, and logs one event if it names a field. */
    method UpdateJob(id: string, f: Fields) returns (reply: Reply)
      requires Valid()
      modifies this
      ensures Valid() && (View(), reply) == Update(old(View()), id, f)
      ensures old(Consistent()) ==> Consistent()
      ensures OnlyRow(old(View()), View(), id) && (reply.Refused? ==> View() == old(View()))
      ensures reply.Job? <==> id in old(jobs)
      ensures reply.Job? ==>
        jobs[id] == old(jobs)[id].(intent := jobs[id].intent, risk := jobs[id].risk,
                                   summary := jobs[id].summary, notes := jobs[id].notes)
        && FieldsAfter(old(jobs)[id], jobs[id], f) && reply.row == jobs[id]
        && log == old(log) + if NamesFields(f) then [Logged(id, JOB_UPDATED)] else []
    {
      hide Indexed, Sound, OnlyRow, FieldsAfter;
      QuietSound(View(), UpdateCall(id, f));
      UpdateFactsFor(View(), id, f);
      if id !in jobs {
        return Refused(JobNotFound);
      }
      var row := jobs[id];
      if !NamesFields(f) {
        assert jobs == jobs[id := row] && log + Tag(id, []) == log;
        return Job(row);
      }
      if f.intent.Some? {
        row := row.(intent := f.intent.value);
      }
      if f.risk.Some? {
        row := row.(risk := f.risk.value);
      }
      if f.summary.Some? {
        row := row.(summary := f.summary.value);
      }
      if f.notes.Some? {
        row := row.(notes := f.notes.value);
      }
      Save(id, row, JOB_UPDATED);
      reply := Job(jobs[id]);
    }

    /** A recorded event changes no row; the history stays true exactly if the event is harmless. */
    method RecordJobEvent(id: string, e: Event) returns (reply: Reply)
      requires Valid()
      modifies this`log
      ensures Valid() && (View(), reply) == RecordEvent(old(View()), id, e)
      ensures old(Consistent()) ==> (Consistent() <==> (reply.Noticed? ==> Harmless(jobs[id], e)))
      ensures reply.Noticed? <==> e.kind != Other("") && id in jobs
      ensures reply.Noticed? ==> log == old(log) + [Logged(id, e)]
      ensures !reply.Noticed? ==>
        View() == old(View()) && reply == Refused(if e.kind == Other("") then InvalidEventType else JobNotFound)
    {
      hide Indexed, Sound, Harmless;
      PerformKeepsIndexed(View(), EventCall(id, e));
      PerformEvent(View(), id, e);
      if Sound(View()) { EventSound(View(), id, e); }
      if e.kind == Other("") {
        return Refused(InvalidEventType);
      }
      if id !in jobs {
        return Refused(JobNotFound);
      }
      log := log + [Logged(id, e)];
      reply := Noticed;
    }

    /** Go ahead exactly if the key is new; a known key is answered with what is stored under it. */
    method BeginOperation(k: OpKey) returns (reply: Reply)
      requires Valid()
      modifies this
      ensures Valid() && (View(), reply) == Begin(old(View()), k)
      ensures old(Consistent()) ==> Consistent()
      ensures jobs == old(jobs) && (reply.Refused? ==> View() == old(View()))
      ensures reply.Operation? ==>
        (reply.replay <==> k in old(ops)) && ops == old(ops)[k := reply.op]
        && (if reply.replay then View() == old(View())
            else reply.op == Op(Started, None, None, None)
                 && Logs(old(View()), View(), k.job, [Event(OperationStarted, None, None, None)]))
      ensures reply.Refused? <==> !IsOperation(k.operation) || !IsKey(k.key) || k.job !in jobs
      ensures reply.Refused? ==>
        reply.error == if !IsOperation(k.operation) then InvalidOperation else if !IsKey(k.key) then InvalidKey else JobNotFound
    {
      hide IsOperation, IsKey, Indexed, Sound, Logs;
      QuietSound(View(), BeginCall(k));
      BeginFactsFor(View(), k);
      if !IsOperation(k.operation) {
        return Refused(InvalidOperation);
      }
      if !IsKey(k.key) {
        return Refused(InvalidKey);
      }
      if k.job !in jobs {
        return Refused(JobNotFound);
      }
      if k in ops {
        return Operation(ops[k], true);
      }
      ops := ops[k := Op(Started, None, None, None)];
      log := log + [Logged(k.job, Event(OperationStarted, None, None, None))];
      reply := Operation(ops[k], false);
    }

    /** The first terminal state stays: a finished operation is never written again. */
    method FinishOperation(k: OpKey, op: Op) returns (reply: Reply)
      requires Valid() && op.state != Started
      modifies this
      ensures Valid() && (View(), reply) == Finish(old(View()), k, op)
      ensures old(Consistent()) ==> Consistent()
      ensures jobs == old(jobs) && (reply.Refused? ==> View() == old(View()))
      ensures k in old(ops) && old(ops)[k].state != Started ==> View() == old(View())
      ensures reply.Operation? ==>
        k in old(ops) && ops == old(ops)[k := reply.op] && (reply.replay <==> old(ops)[k].state != Started)
        && reply.op == (if reply.replay then old(ops)[k] else op)
        && (!reply.replay ==>
              Logs(old(View()), View(), k.job,
                   [Event(if op.state == OpCompleted then OperationCompleted else OperationFailed, None, None, None)]))
      ensures reply.Refused? <==>
        !IsKey(k.key) || k !in old(ops) || (old(ops)[k].state == OpFailed && op.state == OpCompleted)
      ensures reply.Refused? ==>
        reply.error == if !IsKey(k.key) then InvalidKey else if k !in old(ops) then OperationNotFound else OperationAlreadyFailed
    {
      hide IsKey, Indexed, Sound, Logs;
      QuietSound(View(), FinishCall(k, op));
      FinishFactsFor(View(), k, op);
      if !IsKey(k.key) {
        return Refused(InvalidKey);
      }
      if k !in ops {
        return Refused(OperationNotFound);
      }
      if ops[k].state == OpCompleted {
        return Operation(ops[k], true);
      }
      if ops[k].state == OpFailed {
        if op.state == OpFailed {
          return Operation(ops[k], true);
        }
        return Refused(OperationAlreadyFailed);
      }
      ops := ops[k := op];
      log := log + [Logged(k.job, Event(if op.state == OpCompleted then OperationCompleted else OperationFailed,
                                        None, None, None))];
      reply := Operation(op, false);
    }
  }

  lemma PerformCancel(s: State, id: string)
    ensures Perform(s, CancelCall(id)) == RequestCancellation(s, id)
  {
  }

  lemma KeysDiffer(s: State)
    requires Indexed(s)
    ensures forall a, b, project, key :: HasKey(s, a, project, key) && HasKey(s, b, project, key) ==> a == b
  {
    hide Closed;
  }

  lemma RowWhole(s: State, id: string)
    ensures Sound(s) && id in s.jobs ==> LeaseWhole(s.jobs[id])
  {
    hide Indexed, LeaseWhole, FlagSettled, Tells, Read;
    if Sound(s) && id in s.jobs { assert RowSound(s, id); }
  }
}
