/** What a prepare, validate or publish call achieves when nobody else moves, nothing raises and its lease
    lasts; and what its failure handler achieves. Every step of the programs has its part in these results. */
module UndisturbedCalls {
  import opened Text
  import opened Runner
  import opened Jobs
  import opened Runs
  import opened Workspaces
  import opened ControlPlane
  import opened ControlPlaneProofs
  import opened StoreInvariant

  /** Call `p` takes one step after another. */
  ghost function Alone(w: World, p: nat, chs: seq<Choice>): World
    decreases |chs|
  {
    if chs == [] then w else Alone(Advance(w, Go(p, chs[0])), p, chs[1..])
  }

  /** Nothing raises or refuses, the claim is well formed, and the lease, if there is one, still lasts. */
  predicate Easy(w: World, ch: Choice) {
    && !ch.raises && !ch.refuses && !ch.beats && IsWorkerId(ch.owner) && IsLease(ch.seconds)
    && ch.token !in w.used && ch.token != "" && (w.row.expires.Some? ==> ch.now < w.row.expires.value)
  }

  ghost predicate Smooth(w: World, p: nat, chs: seq<Choice>)
    decreases |chs|
  {
    chs == [] || (Easy(w, chs[0]) && Smooth(Advance(w, Go(p, chs[0])), p, chs[1..]))
  }

  lemma Next(w: World, p: nat, chs: seq<Choice>)
    requires chs != [] && Smooth(w, p, chs)
    ensures var u := Advance(w, Go(p, chs[0]));
      Easy(w, chs[0]) && Smooth(u, p, chs[1..]) && Alone(w, p, chs) == Alone(u, p, chs[1..])
  {
    hide Advance, Easy;
  }

  lemma Done(w: World, p: nat)
    ensures Alone(w, p, []) == w
  {
  }

  // ---------------------------------------------------------------- the row of a job that a call holds

  /** The call holds the job in this status. */
  predicate Held(row: Row, lease: Lease, status: Status) {
    row.status == status && Guarded(status) && row.worker == Some(lease.owner) && row.token == Some(lease.token)
    && lease.owner != "" && lease.token != "" && row.expires.Some?
  }

  /** Only the status, the lease and the attempt differ. */
  predicate SameWork(b: Row, a: Row) { OnlyLeaseMoves(b, a) }

  predicate Free(row: Row) {
    row.worker.None? && row.token.None? && row.expires.None? && row.heartbeat.None? && row.origin.None?
  }

  lemma ClaimsHeld(w: World, from: Status, ch: Choice)
    requires Easy(w, ch) && w.row.status == from && SafeOrigin(from) && !w.row.cancel
    ensures var (row, ok) := Claiming(w, from, ch);
      ok && Held(row, Lease(ch.owner, ch.token), Status.Claimed) && SameWork(w.row, row) && row.attempt == w.row.attempt + 1
  {
    assert ch.owner != "" by { assert !IsWorkerId(""); }
    hide IsWorkerId;
  }

  /** The holder moves the job on to another leased status. */
  lemma MovesHeld(w: World, lease: Lease, status: Status, target: Status, ch: Choice)
    requires Easy(w, ch) && Held(w.row, lease, status) && CanMove(status, target) && Guarded(target) && target != Status.Claimed
    requires !w.row.cancel
    ensures var (row, ok) := Leased(w, Some(lease), target, ch.now);
      ok && Held(row, lease, target) && SameWork(w.row, row) && row.attempt == w.row.attempt
  {
    hide IsWorkerId, CanMove;
  }

  lemma BeatsHeld(w: World, lease: Lease, status: Status, ch: Choice)
    requires Easy(w, ch) && Held(w.row, lease, status) && IsWorkerId(lease.owner)
    ensures var (row, ok) := Beating(w, Some(lease), ch);
      ok && Held(row, lease, status) && SameWork(w.row, row) && row.attempt == w.row.attempt
  {
    hide IsWorkerId;
  }

  /** The holder, with the credentials of the row it read, ends the lease. */
  lemma EndsHeld(w: World, lease: Lease, status: Status, target: Status, c: Changes, ch: Choice)
    requires Easy(w, ch) && Held(w.row, lease, status) && CanMove(status, target) && !Guarded(target)
    requires w.row.cancel ==> target == Cancelled || target == RecoveryRequired
    ensures var (row, ok) := Owned(w, w.row, target, c, ch.now);
      ok && row.status == target && Free(row) && SameTask(w.row, row) && ColumnsAfter(w.row, row, c)
      && row.cancel == w.row.cancel && row.attempt == w.row.attempt
  {
    hide IsWorkerId, CanMove;
  }

  lemma StillSameWork(b: Row, m: Row, a: Row)
    requires SameWork(b, m) && SameTask(m, a) && ColumnsAfter(m, a, NO_CHANGES) && a.cancel == m.cancel
    ensures SameWork(b, a)
  {
  }

  // ---------------------------------------------------------------- keyed operations

  /** The call has no key, or a valid one that nobody used. */
  predicate CanBegin(w: World, proc: Proc) {
    CallKey(w.id, proc).Some? ==> IsKey(CallKey(w.id, proc).value.key) && CallKey(w.id, proc).value !in w.ops
  }

  /** The operations of the world, with that of the call in this state. */
  function OpsWith(w: World, proc: Proc, op: Op): map<OpKey, Op> {
    if CallKey(w.id, proc).Some? then w.ops[CallKey(w.id, proc).value := op] else w.ops
  }

  const STARTED := Op(Started, None, None, None)

  lemma BeginsAlone(w: World, p: nat, proc: Proc)
    requires CanBegin(w, proc) && CallKey(w.id, proc).Some?
    ensures var k := CallKey(w.id, proc).value;
      Answered(w, k) == Some(GoneAhead) && Affected(w, p, Begins(k)) == w.(ops := OpsWith(w, proc, STARTED))
  {
    hide IsKey;
    OperationNames();
  }

  lemma OperationNames()
    ensures IsOperation("validate") && IsOperation("publish")
  {
  }

  /** A started operation takes the result it is given. */
  lemma ClosesAlone(w: World, p: nat, proc: Proc, ch: Choice)
    requires !ch.raises
    requires CallKey(w.id, proc).Some? ==>
      var k := CallKey(w.id, proc).value; IsKey(k.key) && k in w.ops && w.ops[k].state == Started
    ensures CanComplete(w, proc, ch)
    ensures Affected(w, p, Closing(w, proc, Success(ch))) == w.(ops := OpsWith(w, proc, Op(OpCompleted, Some(ch.result), None, None)))
    ensures Affected(w, p, Closing(w, proc, Failure(ch))) ==
      w.(ops := OpsWith(w, proc, Op(OpFailed, None, Some(ch.code), Some(ch.message))))
  {
    hide IsKey;
  }

  // ---------------------------------------------------------------- publish

  function Copied(w0: World, changes: seq<Change>, n: nat): Contents
    requires n <= |changes|
  {
    Published(w0.source, w0.workspace, changes[..n])
  }

  /** Nothing of the world changed but the call, its operation, and, once it claimed the job, the row and the
      source. */
  ghost predicate Beside(w0: World, v: World, p: nat) {
    p in w0.procs && p in v.procs &&
    v == w0.(row := v.row, used := v.used, ops := v.ops, source := v.source, procs := w0.procs[p := v.procs[p]])
  }

  /** Before its claim: the call stands at this point. */
  ghost predicate Opening(w0: World, v: World, p: nat, at: PublishPoint, begun: bool) {
    && Beside(w0, v, p) && w0.procs[p].Publish? && v.procs[p].Publish?
    && v.row == w0.row && v.used == w0.used && v.source == w0.source
    && v.ops == (if begun then OpsWith(w0, w0.procs[p], STARTED) else w0.ops)
    && var proc := v.procs[p];
       proc.bp == at && proc.lease.None? && proc.key == w0.procs[p].key && proc.trace == [] && proc.commit.None?
  }

  /** With the lease: the call stands at this point, with the first `n` changes copied. */
  ghost predicate At(w0: World, v: World, p: nat, at: PublishPoint, lease: Lease, status: Status, changes: seq<Change>, n: nat,
                     commit: Option<Snapshot>)
  {
    && Beside(w0, v, p) && w0.procs[p].Publish? && v.procs[p].Publish? && n <= |changes|
    && v.source == Copied(w0, changes, n) && v.ops == OpsWith(w0, w0.procs[p], STARTED)
    && Held(v.row, lease, status) && IsWorkerId(lease.owner) && !v.row.cancel
    && SameWork(w0.row, v.row) && v.row.attempt == w0.row.attempt + 1
    && var proc := v.procs[p];
       && proc.bp == at && proc.lease == Some(lease) && proc.key == w0.procs[p].key && proc.changes == changes
       && CopiedPaths(proc.trace) == Paths(changes[..n]) && proc.commit == commit
  }

  /** After its lease: the job is completed again, and the call stands at this point. */
  ghost predicate Ended(w0: World, v: World, p: nat, at: PublishPoint, changes: seq<Change>, op: Op) {
    && Beside(w0, v, p) && w0.procs[p].Publish? && v.procs[p].Publish?
    && v.source == Copied(w0, changes, |changes|) && v.ops == OpsWith(w0, w0.procs[p], op)
    && v.row.status == Completed && Free(v.row) && SameWork(w0.row, v.row) && v.row.attempt == w0.row.attempt + 1
    && var proc := v.procs[p];
       && proc.bp == at && proc.key == w0.procs[p].key && CopiedPaths(proc.trace) == Paths(changes)
       && proc.commit == Some(Snapshot(v.source, w0.foreign))
  }

  lemma TraceSnoc(trace: seq<Act>, act: Act)
    ensures CopiedPaths(trace + [act]) == CopiedPaths(trace) + if act.Copied? then [act.path] else []
  {
    assert (trace + [act])[..|trace|] == trace;
  }

  lemma BeginSteps(w0: World, p: nat, chs: seq<Choice>)
    requires p in w0.procs && w0.procs[p].Publish? && w0.procs[p] == NewPublish(w0.procs[p].key) && CanBegin(w0, w0.procs[p])
    requires |chs| >= 2 && w0.row.status == Completed && Easy(w0, chs[0])
    requires Easy(Advance(w0, Go(p, chs[0])), chs[1])
    ensures var v := Advance(Advance(w0, Go(p, chs[0])), Go(p, chs[1])); Opening(w0, v, p, BDiff, true)
  {
    hide Opening, Advance, Easy, CanBegin;
    FirstStep(w0, p, chs[0]);
    SecondStep(w0, Advance(w0, Go(p, chs[0])), p, chs[1]);
  }

  lemma FirstStep(w0: World, p: nat, ch: Choice)
    requires p in w0.procs && w0.procs[p].Publish? && w0.procs[p] == NewPublish(w0.procs[p].key)
    requires w0.row.status == Completed && Easy(w0, ch)
    ensures Opening(w0, Advance(w0, Go(p, ch)), p, BBegin(true), false)
  {
    hide ExactDiff, SourceStale, Answered, CopiedPaths, IsWorkerId, Claiming, Leased, Beating, Owned, CanComplete, Closing;
    GoesTo(w0, p, ch);
  }

  lemma SecondStep(w0: World, v: World, p: nat, ch: Choice)
    requires Opening(w0, v, p, BBegin(true), false) && CanBegin(w0, w0.procs[p]) && Easy(v, ch)
    ensures Opening(w0, Advance(v, Go(p, ch)), p, BDiff, true)
  {
    hide ExactDiff, SourceStale, Answered, CopiedPaths, IsWorkerId, Claiming, Leased, Beating, Owned, CanComplete, Closing, IsKey,
      Affected, Begin;
    GoesTo(v, p, ch);
    SameKey(w0, v, p);
    NoEffects(v, p);
    if CallKey(w0.id, w0.procs[p]).Some? { BeginsAlone(v, p, v.procs[p]); }
  }

  lemma NoEffects(w: World, p: nat)
    ensures Affected(w, p, NoEffect) == w
  {
  }

  lemma SameKey(w0: World, v: World, p: nat)
    requires p in w0.procs && p in v.procs && v.id == w0.id && w0.procs[p].Publish? && v.procs[p].Publish?
    requires v.procs[p].key == w0.procs[p].key
    ensures CallKey(v.id, v.procs[p]) == CallKey(w0.id, w0.procs[p])
  {
  }

  lemma DiffStep(w0: World, v: World, p: nat, ch: Choice)
    requires Opening(w0, v, p, BDiff, true) && Easy(v, ch)
    requires ExactDiff(w0.baseline, w0.workspace, ch.changes) && !SourceStale(w0, ch.revision)
    ensures var u := Advance(v, Go(p, ch)); Opening(w0, u, p, BClaim, true) && u.procs[p].changes == ch.changes
  {
    hide ExactDiff, OpsWith, CopiedPaths, IsWorkerId, Stale, Visible, Digests, Claiming, Leased, Beating, Owned,
      Answered, CanComplete, Closing, Transact;
    assert !SourceStale(v, ch.revision);
    hide SourceStale, Claiming, Leased, Beating, Owned, Answered, CanComplete, Closing, Transact;
    GoesTo(v, p, ch);
  }

  lemma ClaimStep(w0: World, v: World, p: nat, ch: Choice, changes: seq<Change>)
    requires Opening(w0, v, p, BClaim, true) && v.procs[p].changes == changes && Easy(v, ch)
    requires w0.row.status == Completed && !w0.row.cancel
    ensures At(w0, Advance(v, Go(p, ch)), p, BPhase, Lease(ch.owner, ch.token), Status.Claimed, changes, 0, None)
  {
    hide OpsWith, ExactDiff, SourceStale, Held, IsWorkerId, Claiming, Leased, Beating, Owned, Answered, CanComplete,
      Closing, Transact;
    GoesTo(v, p, ch);
    ClaimsHeld(v, Completed, ch);
    assert changes[..0] == [];
  }

  lemma PhaseStep(w0: World, v: World, p: nat, lease: Lease, changes: seq<Change>, ch: Choice)
    requires At(w0, v, p, BPhase, lease, Status.Claimed, changes, 0, None) && Easy(v, ch)
    ensures At(w0, Advance(v, Go(p, ch)), p, BBeat(0), lease, Publishing, changes, 0, None)
  {
    hide OpsWith, ExactDiff, SourceStale, IsWorkerId, Leased, Copied, CopiedPaths, Claiming, Beating, Owned,
      Answered, CanComplete, Closing, Transact;
    GoesTo(v, p, ch);
    MovesHeld(v, lease, Status.Claimed, Publishing, ch);
    TraceSnoc(v.procs[p].trace, Entered);
    assert CopiedPaths(v.procs[p].trace) + [] == CopiedPaths(v.procs[p].trace);
  }

  lemma BeatStep(w0: World, v: World, p: nat, lease: Lease, changes: seq<Change>, i: nat, ch: Choice)
    requires At(w0, v, p, BBeat(i), lease, Publishing, changes, i, None) && Easy(v, ch)
    ensures At(w0, Advance(v, Go(p, ch)), p, BLook(i), lease, Publishing, changes, i, None)
  {
    hide OpsWith, ExactDiff, SourceStale, IsWorkerId, Beating, Copied, CopiedPaths, Claiming, Leased, Owned,
      Answered, CanComplete, Closing, Transact;
    GoesTo(v, p, ch);
    BeatsHeld(v, lease, Publishing, ch);
    TraceSnoc(v.procs[p].trace, Beat);
    assert CopiedPaths(v.procs[p].trace) + [] == CopiedPaths(v.procs[p].trace);
  }

  lemma LookStep(w0: World, v: World, p: nat, lease: Lease, changes: seq<Change>, i: nat, ch: Choice)
    requires At(w0, v, p, BLook(i), lease, Publishing, changes, i, None) && Easy(v, ch)
    ensures At(w0, Advance(v, Go(p, ch)), p, if i < |changes| then BCopy(i) else BCommit, lease, Publishing, changes, i, None)
  {
    hide OpsWith, ExactDiff, SourceStale, IsWorkerId, Copied, CopiedPaths, Held, Claiming, Leased, Beating, Owned,
      Answered, CanComplete, Closing, Transact;
    GoesTo(v, p, ch);
    TraceSnoc(v.procs[p].trace, Looked);
    assert CopiedPaths(v.procs[p].trace) + [] == CopiedPaths(v.procs[p].trace);
  }

  lemma CopyStep(w0: World, v: World, p: nat, lease: Lease, changes: seq<Change>, i: nat, ch: Choice)
    requires At(w0, v, p, BCopy(i), lease, Publishing, changes, i, None) && Easy(v, ch) && i < |changes|
    requires changes[i].kind != Deleted && changes[i].path in w0.workspace
    ensures At(w0, Advance(v, Go(p, ch)), p, BBeat(i + 1), lease, Publishing, changes, i + 1, None)
  {
    hide OpsWith, ExactDiff, SourceStale, IsWorkerId, CopiedPaths, Held, Claiming, Leased, Beating, Owned, Answered,
      CanComplete, Closing, Transact;
    GoesTo(v, p, ch);
    TraceSnoc(v.procs[p].trace, Act.Copied(changes[i].path, |v.foreign|));
    assert changes[..i + 1][..i] == changes[..i];
    assert Paths(changes[..i + 1]) == Paths(changes[..i]) + [changes[i].path];
  }

  lemma CommitStep(w0: World, v: World, p: nat, lease: Lease, changes: seq<Change>, ch: Choice)
    requires At(w0, v, p, BCommit, lease, Publishing, changes, |changes|, None) && Easy(v, ch)
    ensures var u := Advance(v, Go(p, ch));
      At(w0, u, p, BReadAgain, lease, Publishing, changes, |changes|, Some(Snapshot(u.source, w0.foreign)))
  {
    hide OpsWith, ExactDiff, SourceStale, IsWorkerId, Copied, CopiedPaths, Held, Claiming, Leased, Beating, Owned,
      Answered, CanComplete, Closing, Transact;
    GoesTo(v, p, ch);
    TraceSnoc(v.procs[p].trace, Committed);
    assert CopiedPaths(v.procs[p].trace) + [] == CopiedPaths(v.procs[p].trace);
  }

  lemma ReadStep(w0: World, v: World, p: nat, lease: Lease, changes: seq<Change>, commit: Option<Snapshot>, ch: Choice)
    requires At(w0, v, p, BReadAgain, lease, Publishing, changes, |changes|, commit) && Easy(v, ch)
    ensures var u := Advance(v, Go(p, ch));
      u.row == v.row && At(w0, u, p, BEnd(u.row), lease, Publishing, changes, |changes|, commit)
  {
    hide OpsWith, ExactDiff, SourceStale, IsWorkerId, Copied, CopiedPaths, Held, Claiming, Leased, Beating, Owned,
      Answered, CanComplete, Closing, Transact;
    GoesTo(v, p, ch);
  }

  lemma EndStep(w0: World, v: World, p: nat, lease: Lease, changes: seq<Change>, ch: Choice)
    requires At(w0, v, p, BEnd(v.row), lease, Publishing, changes, |changes|, Some(Snapshot(v.source, w0.foreign))) && Easy(v, ch)
    ensures Ended(w0, Advance(v, Go(p, ch)), p, BRecord, changes, STARTED)
  {
    hide Free, SameTask, ColumnsAfter, SameWork, OpsWith, ExactDiff, SourceStale, IsWorkerId, Copied, CopiedPaths, Owned, Claiming, Leased, Beating,
      Answered, CanComplete, Closing, Transact;
    GoesTo(v, p, ch);
    EndsHeld(v, lease, Publishing, Completed, NO_CHANGES, ch);
    StillSameWork(w0.row, v.row, Owned(v, v.row, Completed, NO_CHANGES, ch.now).0);
    TraceSnoc(v.procs[p].trace, Finished);
    assert CopiedPaths(v.procs[p].trace) + [] == CopiedPaths(v.procs[p].trace);
    assert changes[..|changes|] == changes;
  }

  lemma RecordStep(w0: World, v: World, p: nat, changes: seq<Change>, ch: Choice)
    requires Ended(w0, v, p, BRecord, changes, STARTED) && Easy(v, ch)
    ensures Ended(w0, Advance(v, Go(p, ch)), p, BComplete, changes, STARTED)
  {
    hide OpsWith, ExactDiff, SourceStale, IsWorkerId, Copied, CopiedPaths, Claiming, Leased, Beating, Owned,
      Answered, CanComplete, Closing, Transact;
    GoesTo(v, p, ch);
  }

  lemma CompleteStep(w0: World, v: World, p: nat, changes: seq<Change>, ch: Choice)
    requires Ended(w0, v, p, BComplete, changes, STARTED) && Easy(v, ch) && CanBegin(w0, w0.procs[p])
    ensures Ended(w0, Advance(v, Go(p, ch)), p, BDone, changes, Op(OpCompleted, Some(ch.result), None, None))
  {
    hide ExactDiff, SourceStale, IsWorkerId, Copied, CopiedPaths, CanComplete, Closing, IsKey, Affected, Claiming,
      Leased, Beating, Owned, Answered, Transact;
    GoesTo(v, p, ch);
    SameKey(w0, v, p);
    ClosesAlone(v, p, v.procs[p], ch);
  }

  /** The loop over the change list and what comes after it. */
  lemma {:induction false} LoopAlone(w0: World, v: World, p: nat, lease: Lease, changes: seq<Change>, i: nat, chs: seq<Choice>)
    requires At(w0, v, p, BBeat(i), lease, Publishing, changes, i, None) && CanBegin(w0, w0.procs[p])
    requires i <= |changes| && Smooth(v, p, chs) && |chs| == 7 + 3 * (|changes| - i)
    requires forall j :: 0 <= j < |changes| ==> changes[j].kind != Deleted && changes[j].path in w0.workspace
    ensures Ended(w0, Alone(v, p, chs), p, BDone, changes, Op(OpCompleted, Some(chs[|chs| - 1].result), None, None))
    decreases |changes| - i
  {
    hide At, Ended, Advance, Smooth, Alone, Easy, CanBegin;
    Next(v, p, chs);
    BeatStep(w0, v, p, lease, changes, i, chs[0]);
    var a := Advance(v, Go(p, chs[0]));
    Next(a, p, chs[1..]);
    LookStep(w0, a, p, lease, changes, i, chs[1..][0]);
    var b := Advance(a, Go(p, chs[1..][0]));
    assert chs[1..][1..] == chs[2..];
    Next(b, p, chs[2..]);
    var c := Advance(b, Go(p, chs[2..][0]));
    assert chs[2..][1..] == chs[3..];
    if i < |changes| {
      CopyStep(w0, b, p, lease, changes, i, chs[2..][0]);
      LoopAlone(w0, c, p, lease, changes, i + 1, chs[3..]);
      assert chs[3..][|chs| - 4] == chs[|chs| - 1];
    } else {
      CommitStep(w0, b, p, lease, changes, chs[2..][0]);
      LastSteps(w0, c, p, lease, changes, chs[3..]);
      assert chs[3..][3] == chs[6];
    }
  }

  lemma LastSteps(w0: World, v: World, p: nat, lease: Lease, changes: seq<Change>, chs: seq<Choice>)
    requires At(w0, v, p, BReadAgain, lease, Publishing, changes, |changes|, Some(Snapshot(v.source, w0.foreign)))
    requires CanBegin(w0, w0.procs[p]) && Smooth(v, p, chs) && |chs| == 4
    ensures Ended(w0, Alone(v, p, chs), p, BDone, changes, Op(OpCompleted, Some(chs[3].result), None, None))
  {
    hide Ended, Advance, Smooth, Alone, Easy, CanBegin, Held, SameWork, CopiedPaths, Copied;
    var commit := Some(Snapshot(v.source, w0.foreign));
    Next(v, p, chs);
    ReadStep(w0, v, p, lease, changes, commit, chs[0]);
    var a := Advance(v, Go(p, chs[0]));
    Next(a, p, chs[1..]);
    EndStep(w0, a, p, lease, changes, chs[1..][0]);
    var b := Advance(a, Go(p, chs[1..][0]));
    assert chs[1..][1..] == chs[2..];
    Next(b, p, chs[2..]);
    RecordStep(w0, b, p, changes, chs[2..][0]);
    var c := Advance(b, Go(p, chs[2..][0]));
    assert chs[2..][1..] == chs[3..];
    Next(c, p, chs[3..]);
    CompleteStep(w0, c, p, changes, chs[3..][0]);
    var d := Advance(c, Go(p, chs[3..][0]));
    assert chs[3..][1..] == [];
    hide At;
    Done(d, p);
  }

  /** A publication of a completed job that nothing disturbs copies every changed file of the workspace onto the
      source, commits exactly that, leaves the job completed and unleased, and completes its operation. */
  lemma PublishAlone(w: World, p: nat, chs: seq<Choice>)
    requires p in w.procs && w.procs[p].Publish? && w.procs[p] == NewPublish(w.procs[p].key) && CanBegin(w, w.procs[p])
    requires w.row.status == Completed && !w.row.cancel && Smooth(w, p, chs)
    requires |chs| >= 12 && |chs| == 12 + 3 * |chs[2].changes|
    requires ExactDiff(w.baseline, w.workspace, chs[2].changes) && NoDeletion(chs[2].changes) && !SourceStale(w, chs[2].revision)
    ensures Ended(w, Alone(w, p, chs), p, BDone, chs[2].changes, Op(OpCompleted, Some(chs[|chs| - 1].result), None, None))
  {
    hide At, Ended, Advance, Smooth, Alone, Easy, CanBegin, ExactDiff, SourceStale, Opening;
    var changes := chs[2].changes;
    ChangesThere(w, changes);
    Next(w, p, chs);
    var a := Advance(w, Go(p, chs[0]));
    Next(a, p, chs[1..]);
    assert chs[1..][0] == chs[1] && chs[1..][1..] == chs[2..];
    BeginSteps(w, p, chs);
    var b := Advance(a, Go(p, chs[1]));
    Next(b, p, chs[2..]);
    assert chs[2..][0] == chs[2] && chs[2..][1..] == chs[3..];
    DiffStep(w, b, p, chs[2]);
    var c := Advance(b, Go(p, chs[2]));
    Next(c, p, chs[3..]);
    assert chs[3..][0] == chs[3] && chs[3..][1..] == chs[4..];
    ClaimStep(w, c, p, chs[3], changes);
    var d := Advance(c, Go(p, chs[3]));
    Next(d, p, chs[4..]);
    assert chs[4..][0] == chs[4] && chs[4..][1..] == chs[5..];
    var lease := Lease(chs[3].owner, chs[3].token);
    PhaseStep(w, d, p, lease, changes, chs[4]);
    LoopAlone(w, Advance(d, Go(p, chs[4])), p, lease, changes, 0, chs[5..]);
    assert chs[5..][|chs| - 6] == chs[|chs| - 1];
  }

  lemma ChangesThere(w: World, changes: seq<Change>)
    requires ExactDiff(w.baseline, w.workspace, changes) && NoDeletion(changes)
    ensures forall j :: 0 <= j < |changes| ==> changes[j].kind != Deleted && changes[j].path in w.workspace
  {
    hide InOrder;
    forall j | 0 <= j < |changes| ensures changes[j].path in w.workspace { assert Mentions(changes, changes[j].path); }
  }
}
