/** Runs of the job store: any sequence of transactions by any workers on any jobs. */
module Runs {
  import opened Text
  import opened Runner
  import opened Jobs

  datatype Call =
    | CreateCall(id: string, d: Draft)
    | ClaimCall(id: string, owner: string, secret: string, seconds: int, expected: set<Status>, now: Time)
    | HeartbeatCall(id: string, owner: string, secret: string, seconds: int, now: Time)
    | TransitionCall(id: string, target: Status, worker: Option<string>, token: Option<string>, c: Changes, now: Time)
    | RecoverCall(id: string, reason: string, now: Time)
    | CancelCall(id: string)
    | UpdateCall(id: string, f: Fields)
    | EventCall(id: string, e: Event)
    | BeginCall(k: OpKey)
    | FinishCall(k: OpKey, op: Op)

  ghost function Perform(s: State, c: Call): (State, Reply) {
    match c
    case CreateCall(id, d) => Create(s, id, d)
    case ClaimCall(id, worker, token, seconds, expected, now) => Claim(s, id, worker, token, seconds, expected, now)
    case HeartbeatCall(id, worker, token, seconds, now) => Heartbeat(s, id, worker, token, seconds, now)
    case TransitionCall(id, target, worker, token, changes, now) => Transition(s, id, target, worker, token, changes, now)
    case RecoverCall(id, reason, now) => Recover(s, id, reason, now)
    case CancelCall(id) => RequestCancellation(s, id)
    case UpdateCall(id, f) => Update(s, id, f)
    case EventCall(id, e) => RecordEvent(s, id, e)
    case BeginCall(k) => Begin(s, k)
    case FinishCall(k, op) => if op.state == Started then (s, Refused(InvalidInput)) else Finish(s, k, op)
  }

  /** The database after a run that starts empty. */
  ghost function After(calls: seq<Call>): State {
    if calls == [] then EMPTY else Perform(After(calls[..|calls| - 1]), calls[|calls| - 1]).0
  }

  ghost function ReplyAt(calls: seq<Call>, i: nat): Reply
    requires i < |calls|
  {
    Perform(After(calls[..i]), calls[i]).1
  }

  lemma AfterNext(calls: seq<Call>, i: nat)
    requires i < |calls|
    ensures After(calls[..i + 1]) == Perform(After(calls[..i]), calls[i]).0
  {
    assert calls[..i + 1][..i] == calls[..i];
  }

  // ---------------------------------------------------------------- one job's part of the log

  function History(log: seq<Logged>, j: string): seq<Event> {
    if log == [] then []
    else History(log[..|log| - 1], j) + if log[|log| - 1].job == j then [log[|log| - 1].event] else []
  }

  lemma {:induction false} HistoryAppend(log: seq<Logged>, more: seq<Logged>, j: string)
    ensures History(log + more, j) == History(log, j) + History(more, j)
  {
    if more == [] {
      assert log + more == log;
    } else {
      var n := |more| - 1;
      HistoryAppend(log, more[..n], j);
      assert (log + more)[..|log + more| - 1] == log + more[..n];
    }
  }

  lemma TagPrefix(id: string, events: seq<Event>, n: nat)
    requires n <= |events|
    ensures Tag(id, events)[..n] == Tag(id, events[..n])
  {
  }

  lemma {:induction false} HistoryOfTag(id: string, events: seq<Event>, j: string)
    ensures History(Tag(id, events), j) == if id == j then events else []
  {
    if events != [] {
      var n := |events| - 1;
      HistoryOfTag(id, events[..n], j);
      TagPrefix(id, events, n);
      assert events == events[..n] + [events[n]];
    }
  }

  lemma HistoryOfOne(id: string, e: Event, j: string)
    ensures History([Logged(id, e)], j) == if id == j then [e] else []
  {
    assert [Logged(id, e)][..0] == [];
  }

  // ---------------------------------------------------------------- what a call does to one row

  /** The decision a call makes about the row it names. */
  function Decide(c: Call, row: Row): RowResult {
    match c
    case ClaimCall(_, worker, token, seconds, expected, now) =>
      if !IsWorkerId(worker) || !IsLease(seconds) || expected == {} then Refuse(InvalidInput)
      else ClaimRow(row, worker, token, seconds, expected, now)
    case HeartbeatCall(_, worker, token, seconds, now) =>
      if !IsWorkerId(worker) || !IsLease(seconds) then Refuse(InvalidInput)
      else HeartbeatRow(row, worker, token, seconds, now)
    case TransitionCall(_, target, worker, token, changes, now) =>
      if target == Claimed then Refuse(ClaimRequired) else TransitionRow(row, target, worker, token, changes, now)
    case RecoverCall(_, reason, now) => RecoverRow(row, reason, now)
    case CancelCall(_) => CancelRow(row)
    case UpdateCall(_, f) => UpdateRow(row, f)
    case EventCall(_, e) => if e.kind == Other("") then Refuse(InvalidEventType) else Change(row, [e])
    case _ => Refuse(InvalidInput)
  }

  predicate Names(c: Call, j: string) {
    match c
    case CreateCall(_, _) => false
    case BeginCall(_) => false
    case FinishCall(_, _) => false
    case _ => c.id == j
  }

  /** Events of the bookkeeping around a row: no status, no lease, no attempt. */
  predicate Bookkeeping(e: Event) {
    e.from.None? && e.to.None? &&
    (e.kind.IdempotencyReplayed? || e.kind.OperationStarted? || e.kind.OperationCompleted? || e.kind.OperationFailed?)
  }

  /** One step of one row: the call's own decision about it, or bookkeeping. */
  predicate RowStep(c: Call, j: string, before: Row, after: Row, added: seq<Event>) {
    (Names(c, j) && Decide(c, before) == Change(after, added))
    || (before == after && forall i :: 0 <= i < |added| ==> Bookkeeping(added[i]))
  }

  predicate Extends(s: State, t: State, j: string, added: seq<Event>) {
    History(t.log, j) == History(s.log, j) + added
  }

  lemma CommitStep(s: State, c: Call, id: string, r: RowResult, j: string) returns (added: seq<Event>)
    requires id in s.jobs && j in s.jobs && Names(c, id) && r == Decide(c, s.jobs[id])
    ensures var t := Commit(s, id, r).0;
      t.jobs.Keys == s.jobs.Keys && Extends(s, t, j, added) && RowStep(c, j, s.jobs[j], t.jobs[j], added)
  {
    hide Decide, Names;
    added := [];
    if r.Change? {
      HistoryAppend(s.log, Tag(id, r.events), j);
      HistoryOfTag(id, r.events, j);
      if id == j { added := r.events; }
    } else {
      assert History(s.log, j) == History(s.log, j) + [];
    }
  }

  lemma LogStep(s: State, id: string, e: Event, j: string) returns (added: seq<Event>)
    ensures var t := s.(log := s.log + [Logged(id, e)]); Extends(s, t, j, added)
    ensures added == if id == j then [e] else []
  {
    HistoryAppend(s.log, [Logged(id, e)], j);
    HistoryOfOne(id, e, j);
    added := if id == j then [e] else [];
  }

  lemma NoStep(s: State, c: Call, j: string) returns (added: seq<Event>)
    requires j in s.jobs
    ensures Extends(s, s, j, added) && RowStep(c, j, s.jobs[j], s.jobs[j], added)
  {
    added := [];
    assert History(s.log, j) == History(s.log, j) + [];
  }

  /** Whatever a call does, each existing row takes one row step and its history grows by the step's events. */
  lemma EveryRowSteps(s: State, c: Call, j: string) returns (added: seq<Event>)
    requires j in s.jobs
    ensures var t := Perform(s, c).0;
      j in t.jobs && Extends(s, t, j, added) && RowStep(c, j, s.jobs[j], t.jobs[j], added)
  {
    hide IsWorkerId, IsLease, IsKey, IsJobId, IsOperation, ClaimRow, HeartbeatRow, TransitionRow, RecoverRow, CancelRow,
      UpdateRow, Commit, Extends, FindKeyed;
    var t := Perform(s, c).0;
    if t == s {
      added := NoStep(s, c, j);
    } else {
      match c
      case CreateCall(id, d) => added := CreateStep(s, id, d, j);
      case BeginCall(k) => added := OperationStep(s, c, j);
      case FinishCall(k, op) => added := OperationStep(s, c, j);
      case EventCall(id, e) => added := LogStep(s, id, e, j);
      case _ => added := CommitStep(s, c, c.id, Decide(c, s.jobs[c.id]), j);
    }
  }

  lemma CreateStep(s: State, id: string, d: Draft, j: string) returns (added: seq<Event>)
    requires j in s.jobs && Create(s, id, d).0 != s
    ensures var t := Create(s, id, d).0;
      j in t.jobs && Extends(s, t, j, added) && RowStep(CreateCall(id, d), j, s.jobs[j], t.jobs[j], added)
  {
    hide IsKey, IsJobId, Extends;
    var existing := if d.key.Some? then FindKeyed(s, d.project, d.key.value) else None;
    if existing.Some? {
      added := LogStep(s, existing.value, Event(IdempotencyReplayed, None, None, None), j);
    } else {
      var e := Event(JobCreated, None, Some(d.status), None);
      added := LogStep(s, id, e, j);
      ExtendsSame(s, s.(log := s.log + [Logged(id, e)]), Create(s, id, d).0, j, added);
    }
  }

  lemma ExtendsSame(s: State, t: State, u: State, j: string, added: seq<Event>)
    requires Extends(s, t, j, added) && t.log == u.log
    ensures Extends(s, u, j, added)
  {
  }

  lemma OperationStep(s: State, c: Call, j: string) returns (added: seq<Event>)
    requires (c.BeginCall? || c.FinishCall?) && j in s.jobs && Perform(s, c).0 != s
    ensures var t := Perform(s, c).0;
      j in t.jobs && Extends(s, t, j, added) && RowStep(c, j, s.jobs[j], t.jobs[j], added)
  {
    hide IsKey, IsOperation, Extends, Create, Claim, Heartbeat, Transition, Recover, RequestCancellation, Update;
    var kind := if c.BeginCall? then OperationStarted
      else if c.op.state == OpCompleted then OperationCompleted else OperationFailed;
    var e := Event(kind, None, None, None);
    added := LogStep(s, c.k.job, e, j);
    ExtendsSame(s, s.(log := s.log + [Logged(c.k.job, e)]), Perform(s, c).0, j, added);
  }

  /** A row that was not there before is a freshly created one, and so is its history. */
  lemma NewRows(s: State, c: Call, j: string)
    requires j !in s.jobs && j in Perform(s, c).0.jobs
    ensures c.CreateCall? && c.id == j && Perform(s, c).0.jobs[j] == NewRow(c.d) && Perform(s, c).1.Made?
    ensures Perform(s, c).0.log == s.log + [Logged(j, Event(JobCreated, None, Some(c.d.status), None))]
  {
    hide IsWorkerId, IsLease, IsKey, IsJobId, IsOperation, ClaimRow, HeartbeatRow, TransitionRow, RecoverRow, CancelRow,
      UpdateRow, FindKeyed, Tag;
  }
}
