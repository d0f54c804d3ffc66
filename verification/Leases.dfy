/** The lease invariant of every reachable row, and what claims, heartbeats and recovery do to a lease. */
module Leases {
  import opened Text
  import opened Jobs
  import opened Runs
  import Timestamps

  /** A guarded row has a complete lease taken from a safe origin; any other row has no trace of one. */
  predicate LeaseWhole(row: Row) {
    if Guarded(row.status) then
      row.worker.GetOr("") != "" && row.token.GetOr("") != "" && row.expires.Some? && row.heartbeat.Some?
      && row.origin.Some? && SafeOrigin(row.origin.value) && row.attempt >= 1
    else
      row.worker.None? && row.token.None? && row.expires.None? && row.heartbeat.None? && row.origin.None?
  }

  /** What the callers of a run promise: new jobs start unguarded, and claim tokens are not empty. */
  predicate Sane(c: Call) {
    (c.CreateCall? ==> !Guarded(c.d.status)) && (c.ClaimCall? ==> c.secret != "")
  }

  predicate AllSane(calls: seq<Call>) { forall i :: 0 <= i < |calls| ==> Sane(calls[i]) }

  /** A created row satisfies the invariant exactly if its initial status is not guarded. */
  lemma CreateLeaseWhole(d: Draft)
    ensures LeaseWhole(NewRow(d)) <==> !Guarded(d.status)
  {
  }

  lemma DecideKeepsLease(c: Call, row: Row)
    requires LeaseWhole(row) && Sane(c) && Decide(c, row).Change?
    ensures LeaseWhole(Decide(c, row).row)
  {
    hide IsLease;
    assert c.ClaimCall? ==> c.owner != "" by { hide LeaseWhole; assert IsWorkerId("") == false; }
  }

  lemma StepKeepsLease(c: Call, j: string, before: Row, after: Row, added: seq<Event>)
    requires LeaseWhole(before) && Sane(c) && RowStep(c, j, before, after, added)
    ensures LeaseWhole(after)
  {
    hide LeaseWhole, Sane, Decide;
    if Names(c, j) && Decide(c, before) == Change(after, added) { DecideKeepsLease(c, before); }
  }

  /** In every run, every row has a whole lease or none. */
  lemma {:induction false} LeasesAlwaysWhole(calls: seq<Call>, j: string)
    requires AllSane(calls) && j in After(calls).jobs
    ensures LeaseWhole(After(calls).jobs[j])
  {
    hide LeaseWhole, Perform, Sane, RowStep, Extends;
    var n := |calls| - 1;
    var s, c := After(calls[..n]), calls[n];
    if j in s.jobs {
      LeasesAlwaysWhole(calls[..n], j);
      var added := EveryRowSteps(s, c, j);
      StepKeepsLease(c, j, s.jobs[j], After(calls).jobs[j], added);
    } else {
      NewRows(s, c, j);
      SaneCreate(c);
    }
  }

  lemma SaneCreate(c: Call)
    requires c.CreateCall? && Sane(c)
    ensures LeaseWhole(NewRow(c.d))
  {
  }

  /** At every instant a leased job is either writable by its holder or recoverable by anyone, never both
      and never neither. */
  lemma WritableXorRecoverable(row: Row, seconds: nat, reason: string, now: Time)
    requires LeaseWhole(row) && Guarded(row.status)
    ensures HeartbeatRow(row, row.worker.value, row.token.value, seconds, now).Change? <==>
            RecoverRow(row, reason, now).Refuse?
  {
  }

  /** Only a claim brings an unguarded job into a guarded phase, and it enters as claimed. */
  lemma OnlyClaimEnters(c: Call, row: Row)
    requires Decide(c, row).Change? && !Guarded(row.status) && Guarded(Decide(c, row).row.status)
    ensures c.ClaimCall? && Decide(c, row).row.status == Claimed
    ensures Decide(c, row).row.worker == Some(c.owner) && Decide(c, row).row.token == Some(c.secret)
  {
  }

  /** A successful claim or heartbeat holds the job until more than its seconds less one millisecond, and at
      most its seconds, from now. */
  lemma GrantedExpiry(c: Call, row: Row)
    requires (c.ClaimCall? || c.HeartbeatCall?) && Decide(c, row).Change?
    ensures Decide(c, row).row.expires.Some?
    ensures var expires := Decide(c, row).row.expires.value;
      c.now + c.seconds * 1_000_000 - 1000 < expires <= c.now + c.seconds * 1_000_000
  {
    hide IsWorkerId, LeaseError;
  }

  /** The expiry a row holds is the one that its timestamp text reads back as. */
  lemma ExpiryIsStoredText(now: Timestamps.Moment, seconds: nat)
    requires Timestamps.Valid(now) && Timestamps.PlusSeconds(now, seconds).Some?
    ensures var text := Timestamps.Stamp(Timestamps.PlusSeconds(now, seconds).value);
      Timestamps.ParseStamp(text).Some? && Timestamps.Valid(Timestamps.ParseStamp(text).value)
      && Timestamps.Micros(Timestamps.ParseStamp(text).value) == Expiry(Timestamps.Micros(now), seconds)
  {
    hide Timestamps.Stamp, Timestamps.ParseStamp, Timestamps.Micros, Timestamps.PlusSeconds;
    Timestamps.GrantedLease(now, seconds);
  }

  /** Recovering an expired claim that entered no phase undoes it: the job stands where it stood, without a
      lease, and only the attempt and the reason remain; a flagged job is cancelled instead. */
  lemma RecoveryUndoesClaim(c: Call, row: Row, flagged: bool, reason: string, now: Time)
    requires LeaseWhole(row) && c.ClaimCall? && Decide(c, row).Change? && Decide(c, row).row.expires.GetOr(0) <= now
    ensures var claimed := Decide(c, row).row.(cancel := flagged);
      RecoverRow(claimed, reason, now).Change? &&
      RecoverRow(claimed, reason, now).row ==
        row.(status := if flagged then Cancelled else row.status, attempt := row.attempt + 1, cancel := flagged,
             notes := row.notes.(recoveryReason := Some(reason), lastError := Some(reason)))
  {
    hide IsWorkerId, IsLease;
  }

  /** Work that has entered a phase is never put back silently: recovery asks for a review. */
  lemma RecoveryOfStartedWork(row: Row, reason: string, now: Time)
    requires LeaseWhole(row) && row.status != Claimed && RecoverRow(row, reason, now).Change?
    ensures RecoverRow(row, reason, now).row.status == RecoveryRequired
  {
  }
}
