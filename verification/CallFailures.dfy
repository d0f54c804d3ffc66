/** What calls leave behind that fail, are refused, or repeat a key, when nothing comes between their steps. */
module CallFailures {
  import opened Text
  import opened Runner
  import opened Jobs
  import opened Runs
  import opened Workspaces
  import opened ControlPlane
  import opened ControlPlaneProofs
  import opened StoreInvariant
  import opened UndisturbedCalls

  /** The call fails next. */
  predicate Fails(proc: Proc) {
    if proc.Prepare? then proc.pp.PFail? else if proc.Validate? then proc.vp.VFail? else proc.bp.BFail?
  }

  predicate Returned(proc: Proc) {
    if proc.Prepare? then proc.pp.PDone? else if proc.Validate? then proc.vp.VDone? else proc.bp.BDone?
  }

  /** The operation of the call, if it has a key, is started under a valid key. */
  predicate Begun(w: World, proc: Proc) {
    CallKey(w.id, proc).Some? ==>
      var k := CallKey(w.id, proc).value; IsKey(k.key) && k in w.ops && w.ops[k].state == Started
  }

  /** The job left its lease for this status with these notes; everything else is as it was. */
  predicate Leaves(b: Row, a: Row, status: Status, c: Changes) {
    && a.status == status && Free(a) && SameTask(b, a) && a.cancel == b.cancel && a.attempt == b.attempt
    && ColumnsAfter(b, a, c.(summary := None))
  }

  /** What the failure handler makes of a leased job: a publication that copied nothing and a validation are
      cancelled on request, else their job waits for recovery. */
  function Fallback(proc: Proc, flag: bool): Status
    requires !proc.Prepare?
  {
    if flag && (proc.Publish? ==> CopiedPaths(proc.trace) == []) then Cancelled else RecoveryRequired
  }

  /** Only the call and these parts of the world differ. */
  ghost predicate Only(w: World, v: World, p: nat, row: Row, ops: map<OpKey, Op>) {
    p in w.procs && p in v.procs && v == w.(row := row, ops := ops, procs := w.procs[p := v.procs[p]])
  }

  lemma ReadsAgain(w: World, p: nat, lease: Lease, ch: Choice)
    requires p in w.procs && !w.procs[p].Prepare? && Fails(w.procs[p]) && Held(w.row, lease, w.row.status) && Easy(w, ch)
    ensures var v := Advance(w, Go(p, ch)); var proc := w.procs[p];
      Only(w, v, p, w.row, w.ops)
      && v.procs[p] == if proc.Validate? then proc.(vp := VFailing(w.row)) else proc.(bp := BFailing(w.row))
  {
    hide IsWorkerId, Claiming, Leased, Beating, Owned, Answered, CanComplete, Closing, Genuine, Summarize, ExactDiff, SourceStale,
      CopiedPaths;
    GoesTo(w, p, ch);
  }

  lemma FallsBack(w: World, p: nat, lease: Lease, ch: Choice)
    requires p in w.procs && Held(w.row, lease, w.row.status) && Easy(w, ch)
    requires (w.procs[p].Validate? && w.procs[p].vp == VFailing(w.row)) || (w.procs[p].Publish? && w.procs[p].bp == BFailing(w.row))
    ensures var v := Advance(w, Go(p, ch)); var proc := w.procs[p];
      Only(w, v, p, v.row, w.ops) && Leaves(w.row, v.row, Fallback(proc, w.row.cancel), ch.notes)
      && v.procs[p] == if proc.Validate? then proc.(vp := VRefuse) else proc.(bp := BRefuse)
  {
    hide IsWorkerId, Claiming, Leased, Beating, Owned, Answered, CanComplete, Closing, Genuine, Summarize, ExactDiff, SourceStale,
      CopiedPaths, SameTask, ColumnsAfter;
    GoesTo(w, p, ch);
    var target := Fallback(w.procs[p], w.row.cancel);
    LeasedFallsBack(w.row.status);
    EndsHeld(w, lease, w.row.status, target, Texts(ch.notes), ch);
  }

  lemma LeasedFallsBack(s: Status)
    requires Guarded(s)
    ensures CanMove(s, Cancelled) && CanMove(s, RecoveryRequired)
  {
  }

  lemma FailsOperation(w: World, p: nat, ch: Choice)
    requires p in w.procs && !ch.raises && Begun(w, w.procs[p])
    requires (w.procs[p].Validate? && w.procs[p].vp.VRefuse?) || (w.procs[p].Publish? && w.procs[p].bp.BRefuse?)
    ensures var v := Advance(w, Go(p, ch)); var proc := w.procs[p];
      Only(w, v, p, w.row, OpsWith(w, proc, Op(OpFailed, None, Some(ch.code), Some(ch.message))))
      && v.procs[p] == if proc.Validate? then proc.(vp := VDone) else proc.(bp := BDone)
  {
    hide Claiming, Leased, Beating, Owned, Answered, CanComplete, Closing, Genuine, Summarize, ExactDiff, SourceStale, CopiedPaths,
      OpsWith, Affected;
    GoesTo(w, p, ch);
    ClosesAlone(w, p, w.procs[p], ch);
  }

  lemma OnlyChain(w: World, a: World, b: World, p: nat, row: Row, ops: map<OpKey, Op>)
    requires exists r, o :: Only(w, a, p, r, o)
    requires Only(a, b, p, row, ops)
    ensures Only(w, b, p, row, ops)
  {
  }

  /** The handler reads the row and ends its lease. */
  lemma Handled(w: World, p: nat, lease: Lease, c: Choice, d: Choice)
    requires p in w.procs && !w.procs[p].Prepare? && Fails(w.procs[p]) && Held(w.row, lease, w.row.status)
    requires Easy(w, c) && Easy(Advance(w, Go(p, c)), d)
    ensures var v := Advance(Advance(w, Go(p, c)), Go(p, d)); var proc := w.procs[p];
      && Only(w, v, p, v.row, w.ops) && Leaves(w.row, v.row, Fallback(proc, w.row.cancel), d.notes)
      && v.procs[p] == if proc.Validate? then proc.(vp := VRefuse) else proc.(bp := BRefuse)
  {
    hide Advance, Easy, Held, CopiedPaths, Leaves;
    ReadsAgain(w, p, lease, c);
    FallsBack(Advance(w, Go(p, c)), p, lease, d);
  }

  /** A validate or publish call that fails while the job is leased ends the lease: on request the job is
      cancelled, unless files were copied, and else it waits for recovery, with what went wrong noted; and
      its operation is stored as failed with that error. */
  lemma FailureCleansUp(w: World, p: nat, lease: Lease, chs: seq<Choice>)
    requires p in w.procs && !w.procs[p].Prepare? && Fails(w.procs[p]) && Held(w.row, lease, w.row.status)
    requires |chs| == 3 && Smooth(w, p, chs) && Begun(w, w.procs[p])
    ensures var v := Alone(w, p, chs); var proc := w.procs[p];
      && Only(w, v, p, v.row, OpsWith(w, proc, Op(OpFailed, None, Some(chs[2].code), Some(chs[2].message))))
      && Leaves(w.row, v.row, Fallback(proc, w.row.cancel), chs[1].notes) && Returned(v.procs[p])
  {
    hide Advance, Smooth, Alone, Held, Fails, Easy, Leaves, OpsWith, Begun, Fallback, CallKey;
    Next(w, p, chs);
    var a := Advance(w, Go(p, chs[0]));
    Next(a, p, chs[1..]);
    assert chs[1..][0] == chs[1] && chs[1..][1..] == chs[2..];
    Handled(w, p, lease, chs[0], chs[1]);
    var b := Advance(a, Go(p, chs[1]));
    Next(b, p, chs[2..]);
    assert chs[2..][0] == chs[2] && chs[2..][1..] == [];
    Refused(w, b, p, chs[2]);
    Done(Advance(b, Go(p, chs[2])), p);
  }

  lemma Refused(w: World, b: World, p: nat, ch: Choice)
    requires p in w.procs && !w.procs[p].Prepare? && Begun(w, w.procs[p]) && Easy(b, ch) && Only(w, b, p, b.row, w.ops)
    requires b.procs[p] == if w.procs[p].Validate? then w.procs[p].(vp := VRefuse) else w.procs[p].(bp := BRefuse)
    ensures var v := Advance(b, Go(p, ch));
      && Only(w, v, p, b.row, OpsWith(w, w.procs[p], Op(OpFailed, None, Some(ch.code), Some(ch.message)))) && v.row == b.row
      && Returned(v.procs[p])
  {
    hide Advance, OpsWith, Begun, CallKey, IsWorkerId;
    SameCall(w.id, w.procs[p], b.procs[p]);
    StillBegun(w, b, p);
    FailsOperation(b, p, ch);
    OnlyChain(w, b, Advance(b, Go(p, ch)), p, b.row, OpsWith(w, w.procs[p], Op(OpFailed, None, Some(ch.code), Some(ch.message))));
  }

  lemma SameCall(id: string, before: Proc, after: Proc)
    requires !before.Prepare? && after == if before.Validate? then before.(vp := VRefuse) else before.(bp := BRefuse)
    ensures CallKey(id, after) == CallKey(id, before)
  {
  }

  lemma StillBegun(w: World, b: World, p: nat)
    requires p in w.procs && p in b.procs && Begun(w, w.procs[p]) && b.id == w.id && b.ops == w.ops
    requires CallKey(w.id, b.procs[p]) == CallKey(w.id, w.procs[p])
    ensures Begun(b, b.procs[p])
    ensures forall op :: OpsWith(b, b.procs[p], op) == OpsWith(w, w.procs[p], op)
  {
    hide IsKey, CallKey;
  }

  // ---------------------------------------------------------------- prepare

  /** The failure handler of a prepare call fails a leased job that nobody asked to cancel, and a job without a
      lease if the table allows; it leaves a flagged leased job to its lease, and a cancelled one alone. */
  lemma PrepareFailure(w: World, p: nat, c: Choice, d: Choice)
    requires p in w.procs && w.procs[p].Prepare? && w.procs[p].pp.PFail? && Easy(w, c) && Easy(Advance(w, Go(p, c)), d)
    requires Guarded(w.row.status) ==> exists lease :: Held(w.row, lease, w.row.status)
    requires !Guarded(w.row.status) ==> Free(w.row)
    ensures var v := Advance(Advance(w, Go(p, c)), Go(p, d)); var s := w.row.status;
      && Only(w, v, p, v.row, w.ops) && Returned(v.procs[p])
      && if s == Completed || s == Failed || s == Cancelled || (Guarded(s) && w.row.cancel) then v.row == w.row
         else Leaves(w.row, v.row, Failed, d.notes)
  {
    hide Advance, Easy, Leaves, Held, Free;
    PrepareReads(w, p, c);
    var a := Advance(w, Go(p, c));
    if w.row.status == Cancelled {
      PrepareStays(a, p, d);
    } else {
      PrepareEnds(a, p, d);
    }
  }

  lemma PrepareReads(w: World, p: nat, ch: Choice)
    requires p in w.procs && w.procs[p].Prepare? && w.procs[p].pp.PFail? && Easy(w, ch)
    ensures var v := Advance(w, Go(p, ch));
      Only(w, v, p, w.row, w.ops) && v.procs[p] == w.procs[p].(pp := if w.row.status == Cancelled then PDone else PFailing(w.row))
  {
    hide IsWorkerId, Claiming, Leased, Owned;
    GoesTo(w, p, ch);
  }

  lemma PrepareStays(w: World, p: nat, ch: Choice)
    requires p in w.procs && w.procs[p].Prepare? && w.procs[p].pp.PDone?
    ensures var v := Advance(w, Go(p, ch)); Only(w, v, p, w.row, w.ops) && v.procs[p] == w.procs[p]
  {
    hide IsWorkerId, Claiming, Leased, Owned;
    GoesTo(w, p, ch);
  }

  lemma PrepareEnds(w: World, p: nat, ch: Choice)
    requires p in w.procs && w.procs[p].Prepare? && w.procs[p].pp == PFailing(w.row) && Easy(w, ch) && w.row.status != Cancelled
    requires Guarded(w.row.status) ==> exists lease :: Held(w.row, lease, w.row.status)
    requires !Guarded(w.row.status) ==> Free(w.row)
    ensures var v := Advance(w, Go(p, ch)); var s := w.row.status;
      && Only(w, v, p, v.row, w.ops) && v.procs[p] == w.procs[p].(pp := PDone)
      && if s == Completed || s == Failed || (Guarded(s) && w.row.cancel) then v.row == w.row
         else Leaves(w.row, v.row, Failed, ch.notes)
  {
    hide IsWorkerId, Claiming, Leased, Owned, Transact, SameTask, ColumnsAfter;
    GoesTo(w, p, ch);
    var s := w.row.status;
    if !Guarded(s) {
      UnleasedFails(w.row, w.id, Texts(ch.notes), ch.now);
    } else if w.row.cancel {
      FlaggedRefuses(w, Texts(ch.notes), ch.now);
    } else {
      var lease :| Held(w.row, lease, s);
      EndsHeld(w, lease, s, Failed, Texts(ch.notes), ch);
    }
  }

  lemma UnleasedFails(row: Row, id: string, c: Changes, now: Time)
    requires !Guarded(row.status) && Free(row)
    ensures var (a, ok) := Transact(row, TransitionCall(id, Failed, None, None, c, now));
      if row.status == Completed || row.status == Failed || row.status == Cancelled then a == row
      else a.status == Failed && Free(a) && SameTask(row, a) && ColumnsAfter(row, a, c) && a.cancel == row.cancel && a.attempt == row.attempt
  {
  }

  lemma FlaggedRefuses(w: World, c: Changes, now: Time)
    requires Guarded(w.row.status) && w.row.cancel
    ensures Owned(w, w.row, Failed, c, now).0 == w.row
  {
    hide LeaseError, Moved;
  }

  /** A prepare call that sees the cancellation flag cancels its job, before it has built anything or after. */
  lemma PrepareCancels(w: World, p: nat, lease: Lease, c: Choice, d: Choice)
    requires p in w.procs && w.procs[p].Prepare? && w.procs[p].lease == Some(lease) && Held(w.row, lease, Status.Preparing)
    requires var at := w.procs[p].pp;
      at.PLook? || (at.PLookAgain? && at.seen.worker == w.row.worker && at.seen.token == w.row.token)
    requires w.row.cancel && Easy(w, c) && Easy(Advance(w, Go(p, c)), d)
    ensures var v := Advance(Advance(w, Go(p, c)), Go(p, d));
      Only(w, v, p, v.row, w.ops) && Leaves(w.row, v.row, Cancelled, NO_CHANGES) && v.procs[p] == w.procs[p].(pp := PFail)
  {
    hide Advance, Easy, Leaves, Held;
    PrepareSees(w, p, c);
    PrepareDrops(Advance(w, Go(p, c)), p, lease, d);
  }

  lemma PrepareSees(w: World, p: nat, ch: Choice)
    requires p in w.procs && w.procs[p].Prepare? && (w.procs[p].pp.PLook? || w.procs[p].pp.PLookAgain?) && w.row.cancel && Easy(w, ch)
    ensures var v := Advance(w, Go(p, ch)); var proc := w.procs[p];
      Only(w, v, p, w.row, w.ops) && v.procs[p] == proc.(pp := if proc.pp.PLook? then PCancel else PCancelAgain(proc.pp.seen))
  {
    hide IsWorkerId, Claiming, Leased, Owned;
    GoesTo(w, p, ch);
  }

  lemma PrepareDrops(w: World, p: nat, lease: Lease, ch: Choice)
    requires p in w.procs && w.procs[p].Prepare? && w.procs[p].lease == Some(lease) && Held(w.row, lease, Status.Preparing) && Easy(w, ch)
    requires var at := w.procs[p].pp;
      at.PCancel? || (at.PCancelAgain? && at.seen.worker == w.row.worker && at.seen.token == w.row.token)
    ensures var v := Advance(w, Go(p, ch));
      Only(w, v, p, v.row, w.ops) && Leaves(w.row, v.row, Cancelled, NO_CHANGES) && v.procs[p] == w.procs[p].(pp := PFail)
  {
    hide IsWorkerId, Claiming, Leased, Owned, SameTask, ColumnsAfter;
    GoesTo(w, p, ch);
    EndsHeld(w, lease, Status.Preparing, Cancelled, NO_CHANGES, ch);
    SameCredentials(w, lease, ch.now);
    if w.procs[p].pp.PCancelAgain? { OwnedByCredentials(w, w.procs[p].pp.seen, Cancelled, NO_CHANGES, ch.now); }
  }

  lemma SameCredentials(w: World, lease: Lease, now: Time)
    requires Held(w.row, lease, Status.Preparing)
    ensures Leased(w, Some(lease), Cancelled, now) == Owned(w, w.row, Cancelled, NO_CHANGES, now)
  {
    hide Transact;
  }

  lemma OwnedByCredentials(w: World, seen: Row, target: Status, c: Changes, now: Time)
    requires seen.worker == w.row.worker && seen.token == w.row.token
    ensures Owned(w, seen, target, c, now) == Owned(w, w.row, target, c, now)
  {
    hide Transact;
  }

  // ---------------------------------------------------------------- refusals and repeated keys

  /** The visible part of the source is not what the workspace was made of, or both revisions are known and differ. */
  predicate Outdated(w: World, revision: Option<string>) {
    || Digests(w.sha, w.baseline) != Digests(w.sha, Visible(w.source, w.hidden))
    || (w.recorded.Some? && revision.Some? && w.recorded.value != "" && revision.value != "" && w.recorded != revision)
  }

  lemma OutdatedExactly(w: World, revision: Option<string>)
    ensures SourceStale(w, revision) <==> Outdated(w, revision)
  {
    hide Digests, Visible, Stale;
    StaleExactly(Digests(w.sha, w.baseline), Digests(w.sha, Visible(w.source, w.hidden)), w.recorded, revision);
  }

  /** A publish call finds its source outdated; a validate call finds its job neither prepared nor completed with a
      summary. Nothing happens but that its operation fails. */
  lemma RefusalFailsOperation(w: World, p: nat, ch: Choice, d: Choice)
    requires p in w.procs && Begun(w, w.procs[p]) && Easy(w, ch) && Easy(Advance(w, Go(p, ch)), d)
    requires var proc := w.procs[p];
      || (proc.Publish? && proc.bp.BDiff? && Outdated(w, ch.revision))
      || (proc.Validate? && proc.vp.VRead? && w.row.status != Prepared && !(w.row.status == Completed && w.row.summary.Some?))
    ensures var v := Advance(Advance(w, Go(p, ch)), Go(p, d));
      && Only(w, v, p, w.row, OpsWith(w, w.procs[p], Op(OpFailed, None, Some(d.code), Some(d.message)))) && Returned(v.procs[p])
  {
    hide Advance, Easy, OpsWith, SourceStale, Begun, Outdated;
    OutdatedExactly(w, ch.revision);
    RefusesNext(w, p, ch);
    Refused(w, Advance(w, Go(p, ch)), p, d);
  }

  lemma RefusesNext(w: World, p: nat, ch: Choice)
    requires p in w.procs && Easy(w, ch)
    requires var proc := w.procs[p];
      || (proc.Publish? && proc.bp.BDiff? && SourceStale(w, ch.revision))
      || (proc.Validate? && proc.vp.VRead? && w.row.status != Prepared && !(w.row.status == Completed && w.row.summary.Some?))
    ensures var v := Advance(w, Go(p, ch)); var proc := w.procs[p];
      Only(w, v, p, w.row, w.ops) && v.procs[p] == if proc.Validate? then proc.(vp := VRefuse) else proc.(bp := BRefuse)
  {
    hide IsWorkerId, Claiming, Leased, Beating, Owned, Answered, CanComplete, Closing, Genuine, Summarize, ExactDiff, SourceStale,
      CopiedPaths;
    GoesTo(w, p, ch);
  }

  /** A publish call of a job that is not completed begins its operation, fails it, and does nothing else. */
  lemma UnreadyPublication(w: World, p: nat, chs: seq<Choice>)
    requires p in w.procs && w.procs[p].Publish? && w.procs[p] == NewPublish(w.procs[p].key) && CanBegin(w, w.procs[p])
    requires w.row.status != Completed && |chs| == 3 && Smooth(w, p, chs)
    ensures var v := Alone(w, p, chs);
      && Only(w, v, p, w.row, OpsWith(w, w.procs[p], Op(OpFailed, None, Some(chs[2].code), Some(chs[2].message))))
      && Returned(v.procs[p])
  {
    hide Advance, Alone, Smooth, IsWorkerId, OpsWith, CanBegin, Begun, CallKey;
    Next(w, p, chs);
    var a := Advance(w, Go(p, chs[0]));
    Next(a, p, chs[1..]);
    assert chs[1..][0] == chs[1] && chs[1..][1..] == chs[2..];
    var b := Advance(a, Go(p, chs[1]));
    Next(b, p, chs[2..]);
    assert chs[2..][0] == chs[2] && chs[2..][1..] == [];
    var v := Advance(b, Go(p, chs[2]));
    Done(v, p);
    UnreadyReads(w, p, chs[0]);
    UnreadyBegins(w, a, p, chs[1]);
    FailsOperation(b, p, chs[2]);
    LastStateCounts(w, b, p, Op(OpFailed, None, Some(chs[2].code), Some(chs[2].message)));
  }

  lemma UnreadyReads(w: World, p: nat, ch: Choice)
    requires p in w.procs && w.procs[p].Publish? && w.procs[p].bp.BRead? && w.row.status != Completed && Easy(w, ch)
    ensures var a := Advance(w, Go(p, ch)); Only(w, a, p, w.row, w.ops) && a.procs[p] == w.procs[p].(bp := BBegin(false))
  {
    hide IsWorkerId, Claiming, Leased, Beating, Owned, Answered, CanComplete, Closing, ExactDiff, SourceStale, CopiedPaths;
    GoesTo(w, p, ch);
  }

  lemma UnreadyBegins(w: World, a: World, p: nat, ch: Choice)
    requires p in w.procs && w.procs[p].Publish? && CanBegin(w, w.procs[p]) && Only(w, a, p, w.row, w.ops) && Easy(a, ch)
    requires a.procs[p] == w.procs[p].(bp := BBegin(false))
    ensures var b := Advance(a, Go(p, ch));
      && Only(w, b, p, w.row, OpsWith(w, w.procs[p], STARTED)) && Begun(b, b.procs[p])
      && b.procs[p].Publish? && b.procs[p].bp.BRefuse? && b.procs[p].key == w.procs[p].key
  {
    hide IsWorkerId, Claiming, Leased, Beating, Owned, CanComplete, Closing, ExactDiff, SourceStale, CopiedPaths, IsKey, Answered,
      Affected, Begin;
    GoesTo(a, p, ch);
    NoEffects(a, p);
    if CallKey(w.id, w.procs[p]).Some? { BeginsAlone(a, p, a.procs[p]); }
  }

  lemma LastStateCounts(w: World, b: World, p: nat, op: Op)
    requires p in w.procs && p in b.procs && b.id == w.id && w.procs[p].Publish? && b.procs[p].Publish?
    requires b.procs[p].key == w.procs[p].key && b.ops == OpsWith(w, w.procs[p], STARTED)
    ensures OpsWith(b, b.procs[p], op) == OpsWith(w, w.procs[p], op)
  {
  }

  /** Validating a completed job again changes nothing and completes its operation with the stored result. */
  lemma ValidatedAgain(w: World, p: nat, ch: Choice, d: Choice)
    requires p in w.procs && w.procs[p].Validate? && w.procs[p].vp.VRead? && Begun(w, w.procs[p])
    requires w.row.status == Completed && w.row.summary.Some? && Easy(w, ch) && Easy(Advance(w, Go(p, ch)), d)
    ensures var v := Advance(Advance(w, Go(p, ch)), Go(p, d));
      && Only(w, v, p, w.row, OpsWith(w, w.procs[p], Op(OpCompleted, Some(d.result), None, None)))
      && v.procs[p] == w.procs[p].(vp := VDone)
  {
    hide Advance, Easy, OpsWith, Begun;
    ReadsVerdict(w, p, ch);
    var a := Advance(w, Go(p, ch));
    ReturnsVerdict(a, p, d) by { AgainBegun(w, a, p); }
    AgainBegun(w, a, p);
  }

  lemma AgainBegun(w: World, a: World, p: nat)
    requires p in w.procs && w.procs[p].Validate? && Begun(w, w.procs[p]) && Only(w, a, p, w.row, w.ops)
    requires a.procs[p] == w.procs[p].(vp := VReturn)
    ensures Begun(a, a.procs[p])
    ensures forall op :: OpsWith(a, a.procs[p], op) == OpsWith(w, w.procs[p], op)
  {
    hide IsKey;
  }

  lemma ReadsVerdict(w: World, p: nat, ch: Choice)
    requires p in w.procs && w.procs[p].Validate? && w.procs[p].vp.VRead? && Easy(w, ch)
    requires w.row.status == Completed && w.row.summary.Some?
    ensures var v := Advance(w, Go(p, ch)); Only(w, v, p, w.row, w.ops) && v.procs[p] == w.procs[p].(vp := VReturn)
  {
    hide IsWorkerId, Claiming, Leased, Beating, Owned, Answered, CanComplete, Closing, Genuine, Summarize;
    GoesTo(w, p, ch);
  }

  lemma ReturnsVerdict(w: World, p: nat, ch: Choice)
    requires p in w.procs && w.procs[p].Validate? && w.procs[p].vp.VReturn? && Easy(w, ch) && Begun(w, w.procs[p])
    ensures var v := Advance(w, Go(p, ch));
      Only(w, v, p, w.row, OpsWith(w, w.procs[p], Op(OpCompleted, Some(ch.result), None, None)))
      && v.procs[p] == w.procs[p].(vp := VDone)
  {
    hide IsWorkerId, Claiming, Leased, Beating, Owned, Answered, CanComplete, Closing, Genuine, Summarize, OpsWith, Affected;
    GoesTo(w, p, ch);
    ClosesAlone(w, p, w.procs[p], ch);
  }

  /** A call whose key is taken is told what is stored under it, and returns without doing anything. */
  lemma RepeatedKeyReturns(w: World, p: nat, ch: Choice)
    requires p in w.procs && Easy(w, ch) && CallKey(w.id, w.procs[p]).Some?
    requires (w.procs[p].Validate? && w.procs[p].vp.VBegin?) || (w.procs[p].Publish? && w.procs[p].bp.BBegin?)
    requires var k := CallKey(w.id, w.procs[p]).value; k in w.ops && IsKey(k.key)
    ensures var v := Advance(w, Go(p, ch)); var told := Told(w.ops[CallKey(w.id, w.procs[p]).value]); var proc := w.procs[p];
      Only(w, v, p, w.row, w.ops)
      && v.procs[p] == if proc.Validate? then proc.(vp := VDone, answer := told) else proc.(bp := BDone, answer := told)
  {
    hide IsWorkerId, Claiming, Leased, Beating, Owned, CanComplete, Closing, Genuine, Summarize, ExactDiff, SourceStale, CopiedPaths,
      IsKey, IsOperation;
    OperationNames();
    GoesTo(w, p, ch);
  }

  // ---------------------------------------------------------------- where an exception leads

  /** The points at which an exception leads to the failure handler. */
  predicate MayFail(proc: Proc) {
    match proc
    case Prepare(at, _) => at.PBuild? || at.PUpdate? || at.PLookAgain? || at.PRecord?
    case Validate(at, _, _, _, _) => at.VRun? || at.VRecord? || at.VComplete?
    case Publish(at, _, _, _, _, _, _, _, _) => at.BCopy? || at.BCommit? || at.BRecord? || at.BComplete?
  }

  /** The points at which it leads out of the call. */
  predicate MayReturn(proc: Proc) {
    match proc
    case Prepare(at, _) => at.PFail?
    case Validate(at, _, _, _, _) => at.VBegin? || at.VRead? || at.VReturn? || at.VRefuse?
    case Publish(at, _, _, _, _, _, _, _, _) => at.BRead? || at.BBegin? || at.BRefuse?
  }

  /** The points at which it leads to failing the operation. */
  predicate MayRefuse(proc: Proc) {
    (proc.Validate? && proc.vp.VFail?) || (proc.Publish? && (proc.bp.BDiff? || proc.bp.BFail?))
  }

  /** The points at which a call deals with its stored operation, if it has a key. */
  predicate AsksStore(proc: Proc) {
    match proc
    case Prepare(_, _) => false
    case Validate(at, _, _, _, _) => at.VBegin? || at.VComplete?
    case Publish(at, _, _, _, _, _, _, _, _) => at.BBegin? || at.BComplete?
  }

  predicate Refuses(proc: Proc) { (proc.Validate? && proc.vp.VRefuse?) || (proc.Publish? && proc.bp.BRefuse?) }

  predicate LeadsOn(proc: Proc, after: Proc) {
    (MayFail(proc) ==> Fails(after)) && (MayRefuse(proc) ==> Refuses(after)) && (MayReturn(proc) ==> Returned(after))
  }

  /** A step at one of these points, with an exception. */
  predicate Raises(w: World, proc: Proc, ch: Choice) {
    ch.raises && (MayFail(proc) || MayRefuse(proc) || MayReturn(proc)) && (AsksStore(proc) ==> CallKey(w.id, proc).Some?)
  }

  predicate Idle(w: World, proc: Proc, o: Outcome) {
    o.row == w.row && o.effect.NoEffect? && o.proc.lease == proc.lease && !ClaimsNext(proc)
  }

  lemma PrepareRaises(w: World, proc: Proc, ch: Choice)
    requires proc.Prepare? && Raises(w, proc, ch)
    ensures var o := StepPrepare(w, proc, ch); Idle(w, proc, o) && LeadsOn(proc, o.proc)
  {
    hide Claiming, Leased, Owned, Transact;
  }

  lemma ValidateRaises(w: World, proc: Proc, ch: Choice)
    requires proc.Validate? && Raises(w, proc, ch)
    ensures var o := StepValidate(w, proc, ch); Idle(w, proc, o) && LeadsOn(proc, o.proc)
  {
    hide Claiming, Leased, Beating, Owned, Answered, CanComplete, Closing, Genuine, Summarize, Transact;
    NoComplete(w, proc, ch);
  }

  lemma PublishRaises(w: World, proc: Proc, ch: Choice)
    requires proc.Publish? && Raises(w, proc, ch)
    ensures var o := StepPublish(w, proc, ch); Idle(w, proc, o) && LeadsOn(proc, o.proc)
  {
    hide Claiming, Leased, Beating, Owned, Answered, CanComplete, Closing, ExactDiff, SourceStale, CopiedPaths, Transact;
    NoComplete(w, proc, ch);
  }

  /** An exception undoes nothing and does nothing, and the call goes to its failure handler, fails its
      operation, or returns, by where it stood. */
  lemma RaisingStep(w: World, p: nat, ch: Choice)
    requires Enabled(w, p, ch) && ch.raises && (AsksStore(w.procs[p]) ==> CallKey(w.id, w.procs[p]).Some?)
    requires MayFail(w.procs[p]) || MayRefuse(w.procs[p]) || MayReturn(w.procs[p])
    ensures var v := Advance(w, Go(p, ch)); var proc := w.procs[p];
      && Only(w, v, p, w.row, w.ops) && v.procs[p].lease == proc.lease
      && (MayFail(proc) ==> Fails(v.procs[p])) && (MayRefuse(proc) ==> Refuses(v.procs[p]))
      && (MayReturn(proc) ==> Returned(v.procs[p]))
  {
    hide StepPrepare, StepValidate, StepPublish, MayFail, MayRefuse, MayReturn, AsksStore, Fails, Refuses, Returned, Decide, Advance,
      Claiming, CopiedPaths, CallKey;
    var proc := w.procs[p];
    match proc {
      case Prepare(_, _) => PrepareRaises(w, proc, ch);
      case Validate(_, _, _, _, _) => ValidateRaises(w, proc, ch);
      case Publish(_, _, _, _, _, _, _, _, _) => PublishRaises(w, proc, ch);
    }
    GoesTo(w, p, ch);
  }

  lemma NoComplete(w: World, proc: Proc, ch: Choice)
    requires ch.raises
    ensures !CanComplete(w, proc, ch)
  {
    hide Finish;
  }

  /** A transaction that the store refuses leads to the failure handler. */
  lemma RefusedTransaction(w: World, p: nat, ch: Choice)
    requires Enabled(w, p, ch)
    requires match w.procs[p]
      case Prepare(at, lease) =>
        (at.PClaim? && !Claiming(w, Queued, ch).1) || (at.PPhase? && !Leased(w, lease, Status.Preparing, ch.now).1)
        || (at.PFinish? && !Owned(w, at.seen, Prepared, Texts(ch.notes), ch.now).1)
      case Validate(at, lease, _, _, _) =>
        (at.VClaim? && !Claiming(w, Prepared, ch).1) || (at.VPhase? && !Leased(w, lease, Validating, ch.now).1)
        || (at.VRun? && ch.beats && !Beating(w, lease, ch).1)
        || (at.VEnd? && at.seen.worker.None? && at.seen.token.None?)
      case Publish(at, lease, _, _, _, _, _, _, _) =>
        (at.BClaim? && !Claiming(w, Completed, ch).1) || (at.BPhase? && !Leased(w, lease, Publishing, ch.now).1)
        || (at.BBeat? && !Beating(w, lease, ch).1) || (at.BEnd? && !Owned(w, at.seen, Completed, NO_CHANGES, ch.now).1)
    ensures Fails(Advance(w, Go(p, ch)).procs[p]) && Advance(w, Go(p, ch)).row == w.row
  {
    hide Answered, CanComplete, Closing, Genuine, Summarize, ExactDiff, SourceStale, CopiedPaths, Decide, Advance, Affected;
    GoesTo(w, p, ch);
  }

  /** A workspace can be edited exactly while its job is prepared or running. */
  lemma EditsWhilePrepared(w: World, files: Contents)
    ensures var v := Advance(w, EditWorkspace(files));
      v == w.(workspace := v.workspace)
      && v.workspace == if w.row.status == Prepared || w.row.status == Status.Running then files else w.workspace
  {
    hide StepProc, Transact, Affected;
  }

  /** A deletion request sets a prepared job aside, and no other job without a lease. */
  lemma DeletionSetsAside(w: World, now: Time)
    requires Free(w.row) && !Guarded(w.row.status)
    ensures var v := Advance(w, RequestDelete(now));
      v == w.(row := v.row)
      && if w.row.status == Prepared then Leaves(w.row, v.row, WaitingForApproval, NO_CHANGES) else v.row == w.row
  {
    hide StepProc, Affected, Transact, Leaves;
    UnleasedSetsAside(w.row, w.id, now);
  }

  lemma UnleasedSetsAside(row: Row, id: string, now: Time)
    requires Free(row) && !Guarded(row.status)
    ensures var after := Transact(row, TransitionCall(id, WaitingForApproval, None, None, NO_CHANGES, now)).0;
      if row.status == Prepared then Leaves(row, after, WaitingForApproval, NO_CHANGES) else after == row
  {
  }
}
