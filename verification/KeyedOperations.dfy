/** Idempotency over whole runs: keyed operations start once and keep their first result; keyed jobs are
    created once and stay bound to their key. */
module KeyedOperations {
  import opened Text
  import opened Jobs
  import opened Runs

  // ---------------------------------------------------------------- operations

  /** The call touches operation `k`: it begins it or finishes it. */
  predicate Touches(c: Call, k: OpKey) { (c.BeginCall? && c.k == k) || (c.FinishCall? && c.k == k) }

  lemma StepKeepsOps(s: State, c: Call, k: OpKey)
    requires k in s.ops
    ensures k in Perform(s, c).0.ops
    ensures s.ops[k].state != Started ==> Perform(s, c).0.ops[k] == s.ops[k]
    ensures Touches(c, k) && Perform(s, c).1.Operation? ==> Perform(s, c).0.ops[k] == Perform(s, c).1.op
    ensures c == BeginCall(k) && Perform(s, c).1.Operation? ==> Perform(s, c).1.replay
  {
    hide IsWorkerId, IsLease, IsKey, IsJobId, IsOperation, ClaimRow, HeartbeatRow, TransitionRow, RecoverRow, CancelRow,
      UpdateRow, FindKeyed, Tag;
  }

  lemma AnswerIsStored(s: State, c: Call, k: OpKey)
    requires Touches(c, k) && Perform(s, c).1.Operation?
    ensures k in Perform(s, c).0.ops && Perform(s, c).0.ops[k] == Perform(s, c).1.op
  {
    hide IsKey, IsOperation;
  }

  lemma {:induction false} OpsStay(calls: seq<Call>, a: nat, b: nat, k: OpKey)
    requires a <= b <= |calls| && k in After(calls[..a]).ops
    ensures k in After(calls[..b]).ops
    ensures After(calls[..a]).ops[k].state != Started ==> After(calls[..b]).ops[k] == After(calls[..a]).ops[k]
    decreases b - a
  {
    hide Perform, After;
    if a < b {
      OpsStay(calls, a, b - 1, k);
      AfterNext(calls, b - 1);
      StepKeepsOps(After(calls[..b - 1]), calls[b - 1], k);
    }
  }

  /** Call `i` begins operation `k` and is told to go ahead. */
  ghost predicate Starts(calls: seq<Call>, i: nat, k: OpKey)
    requires i < |calls|
  {
    calls[i] == BeginCall(k) && ReplyAt(calls, i).Operation? && !ReplyAt(calls, i).replay
  }

  /** Of all calls that begin one operation of one job under one key, at most one is told to go ahead. */
  lemma StartsOnce(calls: seq<Call>, i: nat, m: nat, k: OpKey)
    requires i < m < |calls| && Starts(calls, i, k)
    ensures !Starts(calls, m, k)
  {
    hide Perform, After;
    AfterNext(calls, i);
    AnswerIsStored(After(calls[..i]), calls[i], k);
    OpsStay(calls, i + 1, m, k);
    StepKeepsOps(After(calls[..m]), calls[m], k);
  }

  /** The first terminal result of a keyed operation is the only one anybody is ever told. */
  lemma ResultNeverChanges(calls: seq<Call>, i: nat, m: nat, k: OpKey)
    requires i < m < |calls| && Touches(calls[i], k) && Touches(calls[m], k)
    requires ReplyAt(calls, i).Operation? && ReplyAt(calls, i).op.state != Started
    requires ReplyAt(calls, m).Operation?
    ensures ReplyAt(calls, m).op == ReplyAt(calls, i).op
  {
    hide Perform, After;
    AfterNext(calls, i);
    AnswerIsStored(After(calls[..i]), calls[i], k);
    OpsStay(calls, i + 1, m, k);
    StepKeepsOps(After(calls[..m]), calls[m], k);
  }

  /** What `_idempotent_replay` makes of the answer to a begin: go ahead, the stored result, or an error. */
  datatype Verdict = GoAhead | Return(result: string) | InProgress | Raise(code: string, message: string)

  function VerdictOf(op: Op, replay: bool): Verdict {
    if !replay then GoAhead
    else if op.state == OpCompleted && op.result.Some? then Return(op.result.value)
    else if op.state == Started then InProgress
    else Raise(if op.errorCode.GetOr("") == "" then "IDEMPOTENT_OPERATION_FAILED" else op.errorCode.value,
               if op.errorMessage.GetOr("") == "" then "A previous idempotent operation failed" else op.errorMessage.value)
  }

  /** The stored text is told, and if there is none, or an empty one, the default. */
  predicate Told(stored: Option<string>, told: string, default: string) {
    if stored.Some? && stored.value != "" then stored == Some(told) else told == default
  }

  /** A call whose key was not known goes ahead, and one whose operation is under way is told to wait. */
  lemma UnfinishedVerdicts(op: Op, replay: bool)
    ensures VerdictOf(op, replay) == GoAhead <==> !replay
    ensures VerdictOf(op, replay) == InProgress <==> replay && op.state == Started
  {
  }

  /** Once a keyed operation has a terminal result, every later call with that key gets it: the stored result
      if it completed with one, else the stored error; nobody is told to go ahead or to wait. */
  lemma KeyedCallsRepeatResult(calls: seq<Call>, i: nat, m: nat, k: OpKey)
    requires i < m < |calls| && Touches(calls[i], k) && calls[m] == BeginCall(k)
    requires ReplyAt(calls, i).Operation? && ReplyAt(calls, i).op.state != Started
    requires ReplyAt(calls, m).Operation?
    ensures var op := ReplyAt(calls, i).op; var verdict := VerdictOf(ReplyAt(calls, m).op, ReplyAt(calls, m).replay);
      if op.state == OpCompleted && op.result.Some? then verdict == Return(op.result.value)
      else
        && verdict.Raise? && Told(op.errorCode, verdict.code, "IDEMPOTENT_OPERATION_FAILED")
        && Told(op.errorMessage, verdict.message, "A previous idempotent operation failed")
  {
    hide Perform, After;
    AfterNext(calls, i);
    AnswerIsStored(After(calls[..i]), calls[i], k);
    OpsStay(calls, i + 1, m, k);
    StepKeepsOps(After(calls[..m]), calls[m], k);
    ResultNeverChanges(calls, i, m, k);
  }

  // ---------------------------------------------------------------- keyed jobs

  /** The unique index on project and key. */
  ghost predicate UniqueKeys(s: State) {
    forall a, b, project, key :: HasKey(s, a, project, key) && HasKey(s, b, project, key) ==> a == b
  }

  lemma CreateKeepsUnique(s: State, id: string, d: Draft)
    requires UniqueKeys(s)
    ensures UniqueKeys(Create(s, id, d).0)
  {
    hide IsJobId, IsKey;
    var t := Create(s, id, d).0;
    if t.jobs != s.jobs {
      assert t.jobs == s.jobs[id := NewRow(d)] && id !in s.jobs;
      assert d.key.Some? ==> FindKeyed(s, d.project, d.key.value).None?;
      forall a, b, project, key | HasKey(t, a, project, key) && HasKey(t, b, project, key) ensures a == b {
        assert a != id ==> HasKey(s, a, project, key);
        assert b != id ==> HasKey(s, b, project, key);
      }
    } else {
      SameRowsUnique(s, t);
    }
  }

  lemma SameRowsUnique(s: State, t: State)
    requires UniqueKeys(s) && t.jobs == s.jobs
    ensures UniqueKeys(t)
  {
    forall a, project, key | HasKey(t, a, project, key) ensures HasKey(s, a, project, key) {}
  }

  /** A row may change in any way that keeps its project and its key. */
  lemma RowKeepsUnique(s: State, t: State, id: string)
    requires UniqueKeys(s) && id in s.jobs && id in t.jobs && t.jobs == s.jobs[id := t.jobs[id]]
    requires t.jobs[id].project == s.jobs[id].project && t.jobs[id].key == s.jobs[id].key
    ensures UniqueKeys(t)
  {
    forall a, project, key | HasKey(t, a, project, key) ensures HasKey(s, a, project, key) {}
  }

  lemma SameHit(s: State, id: string, project: string, key: string)
    requires UniqueKeys(s) && HasKey(s, id, project, key)
    ensures FindKeyed(s, project, key) == Some(id)
  {
  }

  lemma NoHit(s: State, project: string, key: string, hits: set<string>)
    requires hits == {}
    requires forall i :: i in s.jobs && s.jobs[i].project == project && s.jobs[i].key == Some(key) ==> i in hits
    ensures FindKeyed(s, project, key) == None
  {
  }

  lemma DecideKeepsKey(c: Call, row: Row)
    requires Decide(c, row).Change?
    ensures Decide(c, row).row.project == row.project && Decide(c, row).row.key == row.key
  {
    hide IsLease, IsWorkerId, LeaseError, Guarded, CanMove;
  }

  lemma StepKeepsKey(c: Call, j: string, before: Row, after: Row, added: seq<Event>)
    requires RowStep(c, j, before, after, added)
    ensures after.project == before.project && after.key == before.key
  {
    hide Decide;
    if Names(c, j) && Decide(c, before) == Change(after, added) { DecideKeepsKey(c, before); }
  }

  lemma StepKeepsBinding(s: State, c: Call, id: string, project: string, key: string)
    requires HasKey(s, id, project, key)
    ensures HasKey(Perform(s, c).0, id, project, key)
  {
    hide Perform, RowStep, Extends;
    var added := EveryRowSteps(s, c, id);
    StepKeepsKey(c, id, s.jobs[id], Perform(s, c).0.jobs[id], added);
  }

  lemma StepKeepsUnique(s: State, c: Call)
    requires UniqueKeys(s)
    ensures UniqueKeys(Perform(s, c).0)
  {
    hide Perform, UniqueKeys;
    if c.CreateCall? {
      CreateKeepsUnique(s, c.id, c.d);
      PerformCreate(s, c);
    } else {
      OldRowsUnique(s, c);
    }
  }

  lemma PerformCreate(s: State, c: Call)
    requires c.CreateCall?
    ensures Perform(s, c) == Create(s, c.id, c.d)
  {
  }

  lemma OldRowsUnique(s: State, c: Call)
    requires UniqueKeys(s) && !c.CreateCall?
    ensures UniqueKeys(Perform(s, c).0)
  {
    hide Perform, RowStep, Extends;
    var t := Perform(s, c).0;
    forall id, project, key | HasKey(t, id, project, key) ensures HasKey(s, id, project, key) {
      if id in s.jobs {
        var added := EveryRowSteps(s, c, id);
        StepKeepsKey(c, id, s.jobs[id], t.jobs[id], added);
      } else {
        NewRows(s, c, id);
      }
    }
  }

  /** In every run a project and a key name at most one job. */
  lemma {:induction false} KeysAlwaysUnique(calls: seq<Call>)
    ensures UniqueKeys(After(calls))
  {
    hide Perform, UniqueKeys;
    if calls == [] {
      EmptyUnique();
    } else {
      KeysAlwaysUnique(calls[..|calls| - 1]);
      StepKeepsUnique(After(calls[..|calls| - 1]), calls[|calls| - 1]);
    }
  }

  lemma EmptyUnique()
    ensures UniqueKeys(EMPTY)
  {
  }

  /** Once a job has its project and key, it has them for ever. */
  lemma {:induction false} BindingStays(calls: seq<Call>, a: nat, b: nat, id: string, project: string, key: string)
    requires a <= b <= |calls| && HasKey(After(calls[..a]), id, project, key)
    ensures HasKey(After(calls[..b]), id, project, key)
    decreases b - a
  {
    hide Perform, After, HasKey;
    if a < b {
      BindingStays(calls, a, b - 1, id, project, key);
      AfterNext(calls, b - 1);
      StepKeepsBinding(After(calls[..b - 1]), calls[b - 1], id, project, key);
    }
  }

  /** What a create request does once its key is taken: nothing new, and a replay of the bound job exactly
      if the request and the intent are the stored ones. */
  lemma BoundKeyReplays(s: State, newId: string, d: Draft, id: string)
    requires UniqueKeys(s) && d.key.Some? && HasKey(s, id, d.project, d.key.value)
    requires d.project != "" && d.request != "" && IsKey(d.key.value) && IsJobId(newId)
    ensures Create(s, newId, d).0.jobs == s.jobs
    ensures Create(s, newId, d).1 ==
      if s.jobs[id].request == d.request && s.jobs[id].intent == d.intent then Made(id, s.jobs[id], false)
      else Refused(KeyConflict)
  {
    hide IsKey, IsJobId, UniqueKeys;
    SameHit(s, id, d.project, d.key.value);
  }

  /** A keyed request creates a job at most once, whatever runs in between; every later request with the
      key is answered with that job or refused. */
  lemma KeyedJobCreatedOnce(calls: seq<Call>, i: nat, m: nat)
    requires i < m < |calls| && calls[i].CreateCall? && calls[m].CreateCall?
    requires calls[i].d.key.Some? && calls[m].d.key == calls[i].d.key && calls[m].d.project == calls[i].d.project
    requires ReplyAt(calls, i).Made?
    ensures ReplyAt(calls, m).Made? ==> !ReplyAt(calls, m).created && ReplyAt(calls, m).id == ReplyAt(calls, i).id
  {
    hide Perform, After, UniqueKeys, HasKey;
    var d, e := calls[i].d, calls[m].d;
    var s, t := After(calls[..i]), After(calls[..m]);
    AfterNext(calls, i);
    PerformCreate(s, calls[i]);
    PerformCreate(t, calls[m]);
    MadeIsBound(s, calls[i].id, d);
    BindingStays(calls, i + 1, m, ReplyAt(calls, i).id, d.project, d.key.value);
    KeysAlwaysUnique(calls[..m]);
    if ReplyAt(calls, m).Made? {
      MadeIsValid(t, calls[m].id, e);
      BoundKeyReplays(t, calls[m].id, e, ReplyAt(calls, i).id);
    }
  }

  lemma MadeIsBound(s: State, id: string, d: Draft)
    requires d.key.Some? && Create(s, id, d).1.Made?
    ensures HasKey(Create(s, id, d).0, Create(s, id, d).1.id, d.project, d.key.value)
  {
    hide IsKey, IsJobId;
  }

  lemma MadeIsValid(s: State, id: string, d: Draft)
    requires Create(s, id, d).1.Made?
    ensures d.project != "" && d.request != "" && (d.key.Some? ==> IsKey(d.key.value)) && IsJobId(id)
  {
    hide IsKey, IsJobId;
  }

  /** `update` may rewrite the stored intent: the request that made the job is then no longer replayed. */
  lemma UpdatedIntentConflicts(s: State, id: string, d: Draft, intent: string, newId: string)
    requires UniqueKeys(s) && d.key.Some? && HasKey(s, id, d.project, d.key.value)
    requires d.project != "" && d.request != "" && IsKey(d.key.value) && IsJobId(newId)
    requires intent != d.intent
    ensures Create(Update(s, id, Fields(Some(intent), None, None, None)).0, newId, d).1 == Refused(KeyConflict)
  {
    hide IsKey, IsJobId, UniqueKeys;
    var t := Update(s, id, Fields(Some(intent), None, None, None)).0;
    RowKeepsUnique(s, t, id);
    BoundKeyReplays(t, newId, d, id);
  }
}
