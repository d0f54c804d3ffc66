/** Cancellation is final: what can still happen to a job after its cancellation was requested. */
module Cancellation {
  import opened Text
  import opened Jobs
  import opened Runs
  import opened Leases
  import opened Fencing

  /** Where a flagged job can be. */
  predicate FlagSettled(row: Row) {
    row.cancel ==> Guarded(row.status) || row.status == RecoveryRequired || row.status == Queued
                   || row.status == Failed || row.status == Cancelled
  }

  /** How many status changes a flagged job may still make. */
  function Measure(s: Status): nat {
    if Guarded(s) then 3 else if s == RecoveryRequired then 2 else if s == Queued then 1 else 0
  }

  lemma DecideAfterFlag(c: Call, row: Row)
    requires Decide(c, row).Change? && LeaseWhole(row) && FlagSettled(row)
    ensures FlagSettled(Decide(c, row).row)
    ensures row.cancel ==> Decide(c, row).row.cancel && !c.ClaimCall?
    ensures row.cancel && Decide(c, row).row.status != row.status ==>
      Measure(Decide(c, row).row.status) < Measure(row.status) && !Guarded(Decide(c, row).row.status)
  {
    hide IsLease, IsWorkerId, LeaseError, Noted, WithoutLease;
    WithoutLeaseKeeps(row, NO_CHANGES);
    if c.TransitionCall? { MovedStatus(row, c.target, c.c); }
  }

  lemma MovedStatus(row: Row, target: Status, c: Changes)
    ensures Moved(row, target, c).status == target && Moved(row, target, c).cancel == row.cancel
  {
  }

  lemma WithoutLeaseKeeps(row: Row, c: Changes)
    ensures WithoutLease(row).status == row.status && WithoutLease(row).cancel == row.cancel
  {
  }

  lemma StepAfterFlag(c: Call, j: string, before: Row, after: Row, added: seq<Event>)
    requires RowStep(c, j, before, after, added) && LeaseWhole(before) && FlagSettled(before)
    ensures FlagSettled(after)
    ensures before.cancel ==> after.cancel
    ensures before.cancel && after.status != before.status ==>
      Measure(after.status) < Measure(before.status) && !Guarded(after.status)
  {
    hide Decide, LeaseWhole, FlagSettled, Guarded, Measure;
    if Names(c, j) && Decide(c, before) == Change(after, added) { DecideAfterFlag(c, before); }
  }

  lemma {:induction false} AlwaysSettled(calls: seq<Call>, n: nat, j: string)
    requires AllSane(calls) && n <= |calls| && HasJob(calls, n, j)
    ensures FlagSettled(RowAt(calls, n, j))
    decreases n
  {
    hide Perform, RowStep, Extends, Sane, LeaseWhole, FlagSettled;
    assert n > 0 by { assert calls[..0] == []; }
    var s, c := After(calls[..n - 1]), calls[n - 1];
    AfterNext(calls, n - 1);
    hide After;
    if j in s.jobs {
      AlwaysSettled(calls, n - 1, j);
      WholeAt(calls, n - 1, j);
      var added := EveryRowSteps(s, c, j);
      StepAfterFlag(c, j, s.jobs[j], RowAt(calls, n, j), added);
    } else {
      NewRows(s, c, j);
      NewUnflagged(c.d);
    }
  }

  lemma NewUnflagged(d: Draft)
    ensures FlagSettled(NewRow(d))
  {
  }

  /** The steps from `a` up to `b` at which the status of `j` changes. */
  ghost function StatusChanges(calls: seq<Call>, a: nat, b: nat, j: string): nat
    requires a <= b <= |calls| && forall i :: a <= i <= b ==> HasJob(calls, i, j)
  {
    hide *;
    if a == b then 0
    else StatusChanges(calls, a, b - 1, j)
         + if RowAt(calls, b, j).status != RowAt(calls, b - 1, j).status then 1 else 0
  }

  /** The flag is set and the job is not, and never again becomes, prepared, waiting or completed. */
  ghost predicate Flagged(calls: seq<Call>, i: nat, j: string)
    requires i <= |calls|
  {
    HasJob(calls, i, j) && RowAt(calls, i, j).cancel
    && RowAt(calls, i, j).status != Prepared && RowAt(calls, i, j).status != WaitingForApproval
    && RowAt(calls, i, j).status != Completed
  }

  /** A status change at step `i`, if there is one, does not lead into a guarded phase. */
  ghost predicate NoNewPhase(calls: seq<Call>, i: nat, j: string)
    requires i < |calls|
  {
    HasJob(calls, i, j) && HasJob(calls, i + 1, j) &&
    (RowAt(calls, i + 1, j).status != RowAt(calls, i, j).status ==> !Guarded(RowAt(calls, i + 1, j).status))
  }

  lemma JobsStay(calls: seq<Call>, a: nat, b: nat, j: string)
    requires a <= b <= |calls| && HasJob(calls, a, j)
    ensures forall i :: a <= i <= b ==> HasJob(calls, i, j)
    decreases b - a
  {
    hide Perform, RowStep, Extends;
    if a < b {
      JobsStay(calls, a, b - 1, j);
      assert HasJob(calls, b - 1, j);
      AfterNext(calls, b - 1);
      hide After;
      var added := EveryRowSteps(After(calls[..b - 1]), calls[b - 1], j);
    }
  }

  /** From the moment its flag is set, a job keeps it, is never claimed, never enters another phase, is never
      prepared, waiting or completed, and changes its status at most three more times. */
  lemma {:induction false} CancellationIsFinal(calls: seq<Call>, a: nat, b: nat, j: string)
    requires AllSane(calls) && a <= b <= |calls| && HasJob(calls, a, j) && RowAt(calls, a, j).cancel
    ensures forall i :: a <= i <= b ==> HasJob(calls, i, j)
    ensures forall i :: a <= i <= b ==> Flagged(calls, i, j)
    ensures forall i :: a <= i < b ==> !Grants(calls, i, j)
    ensures forall i :: a <= i < b ==> NoNewPhase(calls, i, j)
    ensures StatusChanges(calls, a, b, j) + Measure(RowAt(calls, b, j).status) <= Measure(RowAt(calls, a, j).status) <= 3
    decreases b - a
  {
    hide Perform, RowStep, Extends, Sane, LeaseWhole, FlagSettled, Grants, Measure, HasJob, RowAt, Guarded;
    JobsStay(calls, a, b, j);
    AlwaysSettled(calls, b, j);
    MeasureBound(RowAt(calls, a, j).status);
    if a < b {
      CancellationIsFinal(calls, a, b - 1, j);
      assert Flagged(calls, b - 1, j);
      AlwaysSettled(calls, b - 1, j);
      WholeAt(calls, b - 1, j);
      StepFlagged(calls, b - 1, j);
      hide After;
    }
    SettledFlag(RowAt(calls, b, j));
  }

  lemma SettledFlag(row: Row)
    requires FlagSettled(row) && row.cancel
    ensures row.status != Prepared && row.status != WaitingForApproval && row.status != Completed
  {
  }

  lemma MeasureBound(s: Status)
    ensures Measure(s) <= 3
  {
  }

  lemma StepFlagged(calls: seq<Call>, i: nat, j: string)
    requires AllSane(calls) && i < |calls| && HasJob(calls, i, j) && HasJob(calls, i + 1, j)
    requires LeaseWhole(RowAt(calls, i, j)) && FlagSettled(RowAt(calls, i, j)) && RowAt(calls, i, j).cancel
    ensures RowAt(calls, i + 1, j).cancel && !Grants(calls, i, j)
    ensures RowAt(calls, i + 1, j).status != RowAt(calls, i, j).status ==>
      !Guarded(RowAt(calls, i + 1, j).status) && Measure(RowAt(calls, i + 1, j).status) < Measure(RowAt(calls, i, j).status)
  {
    hide Perform, RowStep, Extends, Sane, LeaseWhole, FlagSettled, Measure, Guarded, Decide;
    AfterNext(calls, i);
    hide After;
    var s, c := After(calls[..i]), calls[i];
    var added := EveryRowSteps(s, c, j);
    StepAfterFlag(c, j, s.jobs[j], RowAt(calls, i + 1, j), added);
    if c.ClaimCall? && c.id == j {
      ReplyDecides(s, c, j);
      if Decide(c, s.jobs[j]).Change? { DecideAfterFlag(c, s.jobs[j]); }
    }
  }
}
