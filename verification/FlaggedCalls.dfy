/** What calls can still do once a cancellation was requested: nothing but the one thing each stood right before. */
module FlaggedCalls {
  import opened Text
  import opened Runner
  import opened Jobs
  import opened Runs
  import opened Workspaces
  import opened ControlPlane
  import opened ControlPlaneProofs
  import opened Guarantees

  /** The next step of the call does something outside the job store. */
  predicate Poised(proc: Proc) {
    match proc
    case Prepare(at, _) => at.PBuild?
    case Validate(at, _, _, _, _) => at.VStart?
    case Publish(at, _, _, _, _, _, _, _, _) => at.BCopy? || at.BCommit?
  }

  /** From `w` to `u` files were built, copied or committed, a validation was entered or started, or a job was
      claimed. */
  predicate Works(w: World, u: World) {
    || u.source != w.source || u.baseline != w.baseline || u.workspace != w.workspace || u.recorded != w.recorded
    || u.validations != w.validations || u.frozen != w.frozen || u.validator != w.validator
    || (exists p :: p in w.procs && p in u.procs && Gains(w.procs[p], u.procs[p]))
  }

  /** The call got a lease, a copy or a commit. */
  predicate Gains(before: Proc, after: Proc) {
    after.lease != before.lease
    || (before.Publish? && after.Publish? && (CopiedPaths(after.trace) != CopiedPaths(before.trace) || after.commit != before.commit))
  }

  // ---------------------------------------------------------------- one step

  lemma FlagStays(row: Row, c: Call)
    requires row.cancel
    ensures Transact(row, c).0.cancel
  {
    hide IsLease, IsWorkerId, LeaseError, CanMove;
  }

  lemma NoClaimUnderFlag(w: World, from: Status, ch: Choice)
    requires w.row.cancel
    ensures Claiming(w, from, ch) == (w.row, false)
  {
    hide IsLease, IsWorkerId;
  }

  lemma NoPhaseUnderFlag(w: World, lease: Option<Lease>, target: Status, now: Time)
    requires w.row.cancel && (target == Status.Preparing || target == Validating || target == Publishing)
    ensures Leased(w, lease, target, now) == (w.row, false)
  {
    hide LeaseError, Moved;
  }

  lemma PrepareUnderFlag(w: World, proc: Proc, ch: Choice)
    requires proc.Prepare? && w.row.cancel
    ensures var o := StepPrepare(w, proc, ch);
      o.row.cancel && !Poised(o.proc) && o.proc.lease == proc.lease && (o.effect.NoEffect? || (Poised(proc) && o.effect.Builds?))
  {
    hide Claiming, Leased, Owned, Transact;
    NoClaimUnderFlag(w, Queued, ch);
    NoPhaseUnderFlag(w, proc.lease, Status.Preparing, ch.now);
    forall c: Call ensures Transact(w.row, c).0.cancel { FlagStays(w.row, c); }
    KeptFlag(w);
  }

  lemma KeptFlag(w: World)
    requires w.row.cancel
    ensures forall seen, target, c, now :: Owned(w, seen, target, c, now).0.cancel
    ensures forall lease, target, now :: Leased(w, lease, target, now).0.cancel
    ensures forall lease, ch :: Beating(w, lease, ch).0.cancel
  {
    hide Transact;
    forall c: Call ensures Transact(w.row, c).0.cancel { FlagStays(w.row, c); }
  }

  lemma ValidateUnderFlag(w: World, proc: Proc, ch: Choice)
    requires proc.Validate? && w.row.cancel
    ensures var o := StepValidate(w, proc, ch);
      o.row.cancel && !Poised(o.proc) && o.proc.lease == proc.lease
      && (o.effect.NoEffect? || o.effect.Begins? || o.effect.Finishes? || (Poised(proc) && o.effect.StartsValidation?))
  {
    hide Claiming, Leased, Owned, Beating, Transact, Genuine, Summarize, Answered, CanComplete, FinalStatus, Final;
    NoClaimUnderFlag(w, Prepared, ch);
    NoPhaseUnderFlag(w, proc.lease, Validating, ch.now);
    KeptFlag(w);
  }

  lemma PublishUnderFlag(w: World, proc: Proc, ch: Choice)
    requires proc.Publish? && w.row.cancel
    ensures var o := StepPublish(w, proc, ch);
      && o.row.cancel && !Poised(o.proc) && o.proc.lease == proc.lease
      && (o.effect.NoEffect? || o.effect.Begins? || o.effect.Finishes? || (Poised(proc) && o.effect.Copies?))
  {
    hide Claiming, Leased, Owned, Beating, Transact, ExactDiff, SourceStale, Answered, CanComplete, CopiedPaths;
    NoClaimUnderFlag(w, Completed, ch);
    NoPhaseUnderFlag(w, proc.lease, Publishing, ch.now);
    KeptFlag(w);
  }

  /** A publication copies and commits only where it is poised to. */
  lemma PublishGains(w: World, proc: Proc, ch: Choice)
    requires proc.Publish?
    ensures var o := StepPublish(w, proc, ch);
      && CopiedPaths(proc.trace) <= CopiedPaths(o.proc.trace)
      && |CopiedPaths(o.proc.trace)| <= |CopiedPaths(proc.trace)| + (if proc.bp.BCopy? then 1 else 0)
      && (o.proc.commit == proc.commit || proc.bp.BCommit?)
  {
    hide Claiming, Leased, Owned, Beating, Transact, ExactDiff, SourceStale, Answered, CanComplete, CopiedPaths;
    CopiedSnoc(proc.trace, StepPublish(w, proc, ch).proc.trace);
  }

  lemma CopiedSnoc(trace: seq<Act>, more: seq<Act>)
    ensures more == trace || (|more| == |trace| + 1 && more[..|trace|] == trace) ==>
      CopiedPaths(more) == CopiedPaths(trace) + if more != trace && more[|trace|].Copied? then [more[|trace|].path] else []
  {
    if more == trace { assert CopiedPaths(trace) + [] == CopiedPaths(trace); }
  }

  /** With the flag up a step leaves nobody poised who was not, and works only for a call that was. */
  lemma StepUnderFlag(w: World, m: Move)
    requires w.row.cancel
    ensures var u := Advance(w, m);
      && u.row.cancel
      && (forall p :: p in w.procs ==> p in u.procs && (u.procs[p] == w.procs[p] || !Poised(u.procs[p])))
      && (forall p :: p in u.procs && p !in w.procs ==> !Poised(u.procs[p]) && Idle(u.procs[p]))
      && (Works(w, u) ==> m.WriteSource? || m.EditWorkspace? || (m.Go? && m.p in w.procs && Poised(w.procs[m.p])))
  {
    hide StepPrepare, StepValidate, StepPublish, Affected, Transact, ClaimsNext, Gains;
    if m.Go? && Enabled(w, m.p, m.ch) {
      GoUnderFlag(w, m.p, m.ch);
    } else {
      OthersUnderFlag(w, m);
    }
  }

  /** A call that has done nothing yet. */
  predicate Idle(proc: Proc) { proc.lease.None? && (proc.Publish? ==> CopiedPaths(proc.trace) == [] && proc.commit.None?) }

  lemma OthersUnderFlag(w: World, m: Move)
    requires w.row.cancel && (m.Go? ==> !Enabled(w, m.p, m.ch))
    ensures var u := Advance(w, m);
      && u.row.cancel && (forall p :: p in w.procs ==> p in u.procs && u.procs[p] == w.procs[p])
      && (forall p :: p in u.procs && p !in w.procs ==> !Poised(u.procs[p]) && Idle(u.procs[p]))
      && (Works(w, u) ==> m.WriteSource? || m.EditWorkspace?)
  {
    hide StepProc, Transact, ClaimsNext, Works;
    OthersKeepFlag(w, m);
    OthersKeepCalls(w, m);
    if !m.WriteSource? && !m.EditWorkspace? { NothingWorked(w, Advance(w, m)); }
  }

  lemma OthersKeepFlag(w: World, m: Move)
    requires w.row.cancel && (m.Go? ==> !Enabled(w, m.p, m.ch))
    ensures Advance(w, m).row.cancel
  {
    hide StepProc, Transact, ClaimsNext;
    match m
    case Cancel => FlagStays(w.row, CancelCall(w.id));
    case RecoverMove(reason, now) => FlagStays(w.row, RecoverCall(w.id, reason, now));
    case RequestDelete(now) => FlagStays(w.row, TransitionCall(w.id, WaitingForApproval, None, None, NO_CHANGES, now));
    case _ =>
  }

  lemma OthersKeepCalls(w: World, m: Move)
    requires m.Go? ==> !Enabled(w, m.p, m.ch)
    ensures var u := Advance(w, m);
      && (forall p :: p in w.procs ==> p in u.procs && u.procs[p] == w.procs[p])
      && (forall p :: p in u.procs && p !in w.procs ==> !Poised(u.procs[p]) && Idle(u.procs[p]))
  {
    hide StepProc, Transact, ClaimsNext;
  }

  lemma NothingWorked(w: World, u: World)
    requires u.source == w.source && u.baseline == w.baseline && u.workspace == w.workspace && u.recorded == w.recorded
    requires u.validations == w.validations && u.frozen == w.frozen && u.validator == w.validator
    requires forall p :: p in w.procs ==> p in u.procs && u.procs[p] == w.procs[p]
    ensures !Works(w, u)
  {
    hide Gains;
    forall p | p in w.procs ensures !Gains(w.procs[p], w.procs[p]) { NoGain(w.procs[p]); }
  }

  lemma GoUnderFlag(w: World, p: nat, ch: Choice)
    requires w.row.cancel && Enabled(w, p, ch)
    ensures var u := Advance(w, Go(p, ch));
      && u.row.cancel && u.procs.Keys == w.procs.Keys && (forall q :: q in w.procs && q != p ==> u.procs[q] == w.procs[q])
      && !Poised(u.procs[p]) && (Works(w, u) ==> Poised(w.procs[p]))
  {
    hide StepPrepare, StepValidate, StepPublish, Affected, ClaimsNext, Gains, Poised;
    var proc := w.procs[p];
    var o := StepProc(w, proc, ch);
    var u := Advance(w, Go(p, ch));
    GoesTo(w, p, ch);
    AffectedKeeps(w, p, o.effect);
    if proc.Prepare? {
      PrepareUnderFlag(w, proc, ch);
    } else if proc.Validate? {
      ValidateUnderFlag(w, proc, ch);
    } else {
      PublishUnderFlag(w, proc, ch);
      PublishGains(w, proc, ch);
    }
    PlainEffect(w, p, o.effect);
    forall q | q in w.procs && Gains(w.procs[q], u.procs[q]) ensures Poised(proc) {
      NoGain(w.procs[q]);
      if q == p { GainIsPoised(proc, o.proc); }
    }
  }

  lemma PlainEffect(w: World, p: nat, e: Effect)
    ensures e.NoEffect? || e.Begins? || e.Finishes? ==>
      var v := Affected(w, p, e);
      && v.source == w.source && v.baseline == w.baseline && v.workspace == w.workspace && v.recorded == w.recorded
      && v.validations == w.validations && v.frozen == w.frozen && v.validator == w.validator
  {
    hide Begin, Finish;
  }

  lemma NoGain(proc: Proc)
    ensures !Gains(proc, proc)
  {
  }

  lemma GainIsPoised(before: Proc, after: Proc)
    requires Gains(before, after) && after.lease == before.lease
    requires before.Publish? && after.Publish? ==>
      CopiedPaths(before.trace) <= CopiedPaths(after.trace)
      && |CopiedPaths(after.trace)| <= |CopiedPaths(before.trace)| + (if before.bp.BCopy? then 1 else 0)
      && (after.commit == before.commit || before.bp.BCommit?)
    ensures Poised(before)
  {
    hide CopiedPaths;
  }

  // ---------------------------------------------------------------- whole runs

  lemma {:induction false} StillStands(start: World, moves: seq<Move>, a: nat, b: nat, p: nat)
    requires a <= b <= |moves| && WorldAfter(start, moves[..a]).row.cancel
    ensures var u, v := WorldAfter(start, moves[..a]), WorldAfter(start, moves[..b]);
      && v.row.cancel
      && (p in u.procs ==> p in v.procs)
      && (p in v.procs && Poised(v.procs[p]) ==> p in u.procs && v.procs[p] == u.procs[p])
    decreases b - a
  {
    hide WorldAfter, Advance, Poised, Works, Idle;
    if a < b {
      StillStands(start, moves, a, b - 1, p);
      AfterSnoc(start, moves, b - 1);
      StepUnderFlag(WorldAfter(start, moves[..b - 1]), moves[b - 1]);
    }
  }

  /** Once a cancellation was requested nothing is claimed, built, validated, copied or committed any more, in
      any interleaving, except that a call which stood right before its build, its validation, a copy or the
      commit may still take that one step. */
  lemma FlagStopsWork(start: World, moves: seq<Move>, a: nat, b: nat)
    requires a <= b < |moves| && WorldAfter(start, moves[..a]).row.cancel
    ensures var u, v := WorldAfter(start, moves[..a]), WorldAfter(start, moves[..b]);
      Works(v, WorldAfter(start, moves[..b + 1])) ==>
        moves[b].WriteSource? || moves[b].EditWorkspace?
        || (moves[b].Go? && var p := moves[b].p; p in u.procs && p in v.procs && v.procs[p] == u.procs[p] && Poised(u.procs[p]))
  {
    hide WorldAfter, Advance, Poised, Works, Idle;
    AfterSnoc(start, moves, b);
    StillStands(start, moves, a, b, if moves[b].Go? then moves[b].p else 0);
    StepUnderFlag(WorldAfter(start, moves[..b]), moves[b]);
  }

  /** How far a publication has come since the flag was raised. */
  predicate OneMore(u: World, v: World, p: nat) {
    p in v.procs && v.procs[p].Publish? ==>
      var after := v.procs[p];
      if p !in u.procs then CopiedPaths(after.trace) == [] && after.commit.None?
      else
        var before := u.procs[p];
        && before.Publish? && CopiedPaths(before.trace) <= CopiedPaths(after.trace)
        && |CopiedPaths(after.trace)| <= |CopiedPaths(before.trace)| + (if before.bp.BCopy? then 1 else 0)
        && (after.commit == before.commit || before.bp.BCommit?)
  }

  /** What one move does to a publication. */
  lemma MoveOfPublication(w: World, m: Move, p: nat)
    requires w.row.cancel && p in Advance(w, m).procs && Advance(w, m).procs[p].Publish?
    ensures var after := Advance(w, m).procs[p];
      if p !in w.procs then Idle(after)
      else
        var before := w.procs[p];
        && before.Publish? && CopiedPaths(before.trace) <= CopiedPaths(after.trace)
        && |CopiedPaths(after.trace)| <= |CopiedPaths(before.trace)| + (if before.bp.BCopy? then 1 else 0)
        && (after.commit == before.commit || before.bp.BCommit?)
  {
    hide StepPrepare, StepValidate, StepPublish, Affected, Transact, ClaimsNext, CopiedPaths;
    if m.Go? && Enabled(w, m.p, m.ch) {
      GoesTo(w, m.p, m.ch);
      KindsStay(w, m.p, m.ch);
      if m.p == p { PublishGains(w, w.procs[p], m.ch); }
    } else {
      hide Advance;
      OthersUnderFlag(w, m);
    }
  }

  lemma OneMoreStep(u: World, w: World, v: World, p: nat)
    requires OneMore(u, w, p) && (p in u.procs ==> p in w.procs)
    requires p in w.procs && Poised(w.procs[p]) ==> p in u.procs && w.procs[p] == u.procs[p]
    requires p in w.procs ==> p in v.procs
    requires p in v.procs && v.procs[p].Publish? ==>
      var after := v.procs[p];
      if p !in w.procs then Idle(after)
      else
        var before := w.procs[p];
        && before.Publish? && CopiedPaths(before.trace) <= CopiedPaths(after.trace)
        && |CopiedPaths(after.trace)| <= |CopiedPaths(before.trace)| + (if before.bp.BCopy? then 1 else 0)
        && (after.commit == before.commit || before.bp.BCommit?)
    ensures OneMore(u, v, p)
  {
    hide CopiedPaths;
  }

  /** From the first world in which a cancellation is requested, each publication copies at most one more path,
      and that only if it already stood before the copy, and commits only if it already stood before the
      commit. */
  lemma {:induction false} FlaggedPublication(start: World, moves: seq<Move>, a: nat, b: nat, p: nat)
    requires a <= b <= |moves| && WorldAfter(start, moves[..a]).row.cancel
    ensures OneMore(WorldAfter(start, moves[..a]), WorldAfter(start, moves[..b]), p)
    decreases b - a
  {
    hide WorldAfter, Advance, Poised, Works, Idle, OneMore;
    var u := WorldAfter(start, moves[..a]);
    if a == b {
      NoMore(u, p);
    } else {
      var w, v := WorldAfter(start, moves[..b - 1]), WorldAfter(start, moves[..b]);
      FlaggedPublication(start, moves, a, b - 1, p);
      StillStands(start, moves, a, b - 1, p);
      AfterSnoc(start, moves, b - 1);
      StepUnderFlag(w, moves[b - 1]);
      if p in v.procs && v.procs[p].Publish? { MoveOfPublication(w, moves[b - 1], p); }
      OneMoreStep(u, w, v, p);
    }
  }

  lemma NoMore(u: World, p: nat)
    ensures OneMore(u, u, p)
  {
    hide CopiedPaths;
  }
}
