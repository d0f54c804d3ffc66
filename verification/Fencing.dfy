/** Fencing: only the latest claimant of a job can write under its lease, and leases never overlap. */
module Fencing {
  import opened Text
  import opened Jobs
  import opened Runs
  import opened Leases

  predicate IsLeaseCall(c: Call) { c.ClaimCall? || c.HeartbeatCall? || c.TransitionCall? || c.RecoverCall? }

  ghost predicate HasJob(calls: seq<Call>, i: nat, j: string)
    requires i <= |calls|
  {
    j in After(calls[..i]).jobs
  }

  ghost function RowAt(calls: seq<Call>, i: nat, j: string): Row
    requires i <= |calls| && HasJob(calls, i, j)
  {
    After(calls[..i]).jobs[j]
  }

  ghost predicate Leased(calls: seq<Call>, i: nat, j: string)
    requires i <= |calls|
  {
    HasJob(calls, i, j) && Guarded(RowAt(calls, i, j).status)
  }

  /** Call `i` is a claim of `j` that succeeds. */
  ghost predicate Grants(calls: seq<Call>, i: nat, j: string)
    requires i < |calls|
  {
    calls[i].ClaimCall? && calls[i].id == j && ReplyAt(calls, i).Job?
  }

  /** Call `i` ends the lease of `j`. */
  ghost predicate Releases(calls: seq<Call>, i: nat, j: string)
    requires i < |calls|
  {
    Leased(calls, i, j) && !Leased(calls, i + 1, j)
  }

  /** The credentials of a heartbeat or a transition. */
  predicate WritesAs(c: Call, j: string, owner: string, secret: string) {
    (c.HeartbeatCall? && c.id == j && c.owner == owner && c.secret == secret)
    || (c.TransitionCall? && c.id == j && c.worker == Some(owner) && c.token == Some(secret))
  }

  /** Call `i` succeeds in writing under the lease of `j` with these credentials. */
  ghost predicate LeasedWrite(calls: seq<Call>, i: nat, j: string, owner: string, secret: string)
    requires i < |calls|
  {
    Leased(calls, i, j) && WritesAs(calls[i], j, owner, secret) && ReplyAt(calls, i).Job?
  }

  lemma ReplyDecides(s: State, c: Call, j: string)
    requires IsLeaseCall(c) && c.id == j
    ensures Perform(s, c).1.Job? <==> j in s.jobs && Decide(c, s.jobs[j]).Change?
    ensures Perform(s, c).1.Job? ==> Perform(s, c).0.jobs == s.jobs[j := Decide(c, s.jobs[j]).row]
  {
    hide IsWorkerId, IsLease, ClaimRow, HeartbeatRow, TransitionRow, RecoverRow, Tag;
  }

  // ---------------------------------------------------------------- row facts

  lemma LeaseKept(c: Call, row: Row)
    requires Guarded(row.status) && Decide(c, row).Change? && Guarded(Decide(c, row).row.status)
    ensures Decide(c, row).row.worker == row.worker && Decide(c, row).row.token == row.token
    ensures Decide(c, row).row.origin == row.origin && Decide(c, row).row.attempt == row.attempt
    ensures !c.ClaimCall?
  {
  }

  lemma StepKeepsHolder(c: Call, j: string, before: Row, after: Row, added: seq<Event>)
    requires RowStep(c, j, before, after, added) && Guarded(before.status) && Guarded(after.status)
    ensures after.worker == before.worker && after.token == before.token
  {
    hide Decide, Guarded;
    if Names(c, j) && Decide(c, before) == Change(after, added) { LeaseKept(c, before); }
  }

  lemma StepEnters(c: Call, j: string, before: Row, after: Row, added: seq<Event>)
    requires RowStep(c, j, before, after, added) && !Guarded(before.status) && Guarded(after.status)
    ensures c.ClaimCall? && c.id == j && Decide(c, before).Change?
    ensures after.worker == Some(c.owner) && after.token == Some(c.secret)
  {
    hide Decide, Guarded;
    if Names(c, j) && Decide(c, before) == Change(after, added) { OnlyClaimEnters(c, before); }
  }

  lemma WriterHolds(c: Call, row: Row, j: string, owner: string, secret: string)
    requires LeaseWhole(row) && Guarded(row.status) && WritesAs(c, j, owner, secret) && Decide(c, row).Change?
    ensures row.worker == Some(owner) && row.token == Some(secret)
    ensures c.now < row.expires.value
  {
  }

  // ---------------------------------------------------------------- runs

  /** A call that claims while a lease is held does not succeed. */
  lemma NoGrantWhileLeased(calls: seq<Call>, i: nat, j: string)
    requires i < |calls| && Leased(calls, i, j)
    ensures !Grants(calls, i, j)
  {
    hide After, Perform, Decide, Guarded;
    if calls[i].ClaimCall? && calls[i].id == j {
      ReplyDecides(After(calls[..i]), calls[i], j);
      ClaimRefused(calls[i], RowAt(calls, i, j));
    }
  }

  lemma ClaimRefused(c: Call, row: Row)
    requires c.ClaimCall? && Guarded(row.status)
    ensures Decide(c, row).Refuse?
  {
  }

  /** A leased job is held with the credentials of a claim after which nobody claimed or released it. */
  lemma {:induction false} LatestClaim(calls: seq<Call>, n: nat, j: string) returns (k: nat)
    requires AllSane(calls) && n <= |calls| && Leased(calls, n, j)
    ensures k < n && Grants(calls, k, j)
    ensures RowAt(calls, n, j).worker == Some(calls[k].owner) && RowAt(calls, n, j).token == Some(calls[k].secret)
    ensures forall m :: k < m < n ==> !Grants(calls, m, j) && !Releases(calls, m, j)
    ensures forall m :: k < m <= n ==> Leased(calls, m, j)
    decreases n
  {
    hide Perform, RowStep, Extends, Guarded, Sane, Decide;
    assert n > 0 by { assert calls[..0] == []; }
    var i := n - 1;
    var s, c := After(calls[..i]), calls[i];
    AfterNext(calls, i);
    hide After;
    if Leased(calls, i, j) {
      k := LatestClaim(calls, i, j);
      var added := EveryRowSteps(s, c, j);
      StepKeepsHolder(c, j, RowAt(calls, i, j), RowAt(calls, n, j), added);
      NoGrantWhileLeased(calls, i, j);
    } else {
      k := i;
      if j in s.jobs {
        var added := EveryRowSteps(s, c, j);
        StepEnters(c, j, s.jobs[j], RowAt(calls, n, j), added);
        ReplyDecides(s, c, j);
      } else {
        NewRows(s, c, j);
        assert Sane(c);
        NewUnguarded(c);
      }
    }
  }

  lemma NewUnguarded(c: Call)
    requires c.CreateCall? && Sane(c)
    ensures !Guarded(NewRow(c.d).status)
  {
  }

  lemma WholeAt(calls: seq<Call>, i: nat, j: string)
    requires AllSane(calls) && i <= |calls| && HasJob(calls, i, j)
    ensures LeaseWhole(RowAt(calls, i, j))
  {
    hide LeaseWhole, After, Sane;
    assert AllSane(calls[..i]) by {
      forall m | 0 <= m < i ensures Sane(calls[..i][m]) { assert calls[..i][m] == calls[m]; }
    }
    LeasesAlwaysWhole(calls[..i], j);
  }

  /** Every successful leased write uses the credentials of the job's latest claim, before its expiry, and
      no release lies between the claim and the write. */
  lemma LatestClaimantWrites(calls: seq<Call>, i: nat, j: string, owner: string, secret: string) returns (k: nat)
    requires AllSane(calls) && i < |calls| && LeasedWrite(calls, i, j, owner, secret)
    ensures k < i && Grants(calls, k, j) && calls[k].owner == owner && calls[k].secret == secret
    ensures forall m :: k < m < i ==> !Grants(calls, m, j) && !Releases(calls, m, j)
    ensures RowAt(calls, i, j).expires.Some? && calls[i].now < RowAt(calls, i, j).expires.value
  {
    hide After, Perform, Decide, Guarded, Grants, Releases, LeaseWhole, Sane;
    WholeAt(calls, i, j);
    ReplyDecides(After(calls[..i]), calls[i], j);
    WriterHolds(calls[i], RowAt(calls, i, j), j, owner, secret);
    k := LatestClaim(calls, i, j);
    LeasedRow(RowAt(calls, i, j));
  }

  lemma LeasedRow(row: Row)
    requires LeaseWhole(row) && Guarded(row.status)
    ensures row.expires.Some?
  {
  }

  /** No two claims of the run use one token. */
  predicate FreshTokens(calls: seq<Call>) {
    forall k, m :: 0 <= k < m < |calls| && calls[k].ClaimCall? && calls[m].ClaimCall? ==> calls[k].secret != calls[m].secret
  }

  /** Once a claim was followed by another claim or by a release, its token never writes again. */
  lemma SupersededNeverWrites(calls: seq<Call>, k: nat, m: nat, i: nat, j: string, owner: string)
    requires AllSane(calls) && FreshTokens(calls) && k < m < i < |calls|
    requires Grants(calls, k, j) && (Grants(calls, m, j) || Releases(calls, m, j))
    ensures !LeasedWrite(calls, i, j, owner, calls[k].secret)
  {
    hide After, Perform, Leased, ReplyAt, Sane;
    if LeasedWrite(calls, i, j, owner, calls[k].secret) {
      var latest := LatestClaimantWrites(calls, i, j, owner, calls[k].secret);
    }
  }

  // ---------------------------------------------------------------- tenures

  /** The clock of the run never goes back between two calls that read it. */
  predicate Monotone(calls: seq<Call>) {
    forall a, b :: 0 <= a < b < |calls| && IsLeaseCall(calls[a]) && IsLeaseCall(calls[b]) ==> calls[a].now <= calls[b].now
  }

  lemma GrantStarts(calls: seq<Call>, k: nat, j: string)
    requires k < |calls| && Grants(calls, k, j)
    ensures Leased(calls, k + 1, j) && HasJob(calls, k, j)
  {
    hide Perform, Decide;
    AfterNext(calls, k);
    hide After;
    ReplyDecides(After(calls[..k]), calls[k], j);
    ClaimEnters(calls[k], After(calls[..k]).jobs[j]);
  }

  lemma ClaimEnters(c: Call, row: Row)
    requires c.ClaimCall? && Decide(c, row).Change?
    ensures Decide(c, row).row.status == Claimed
  {
  }

  /** Between a moment with a lease and a later claim there is a release. */
  lemma {:induction false} ReleaseBetween(calls: seq<Call>, a: nat, m: nat, j: string) returns (r: nat)
    requires a <= m < |calls| && Leased(calls, a, j) && Grants(calls, m, j)
    ensures a <= r < m && Releases(calls, r, j)
    ensures forall i :: a <= i <= r ==> Leased(calls, i, j)
    decreases m - a
  {
    hide After, Grants, Leased;
    if a == m {
      NoGrantWhileLeased(calls, m, j);
    } else if Leased(calls, a + 1, j) {
      r := ReleaseBetween(calls, a + 1, m, j);
    } else {
      r := a;
    }
  }

  /** How a lease can end: by its holder before the expiry, or by a recovery at or after it. */
  lemma ReleasedHow(calls: seq<Call>, r: nat, j: string)
    requires AllSane(calls) && r < |calls| && Releases(calls, r, j)
    ensures HasJob(calls, r, j) && RowAt(calls, r, j).expires.Some?
    ensures (calls[r].TransitionCall? && calls[r].now < RowAt(calls, r, j).expires.value)
         || (calls[r].RecoverCall? && RowAt(calls, r, j).expires.value <= calls[r].now)
  {
    hide Perform, RowStep, Extends, Guarded, Sane, Decide, LeaseWhole;
    var s, c := After(calls[..r]), calls[r];
    WholeAt(calls, r, j);
    AfterNext(calls, r);
    hide After;
    LeasedRow(s.jobs[j]);
    var added := EveryRowSteps(s, c, j);
    StepReleases(c, j, s.jobs[j], Perform(s, c).0.jobs[j], added);
  }

  lemma StepReleases(c: Call, j: string, before: Row, after: Row, added: seq<Event>)
    requires RowStep(c, j, before, after, added) && LeaseWhole(before)
    requires Guarded(before.status) && !Guarded(after.status)
    ensures (c.TransitionCall? && c.now < before.expires.value) || (c.RecoverCall? && before.expires.value <= c.now)
  {
    hide IsLease, IsWorkerId, Noted, WithoutLease;
    if Names(c, j) && Decide(c, before) == Change(after, added) {
    }
  }

  /** Tenures of one job are disjoint in time: between two claims the first lease ends, by its holder before
      its expiry or by a recovery not before it; every write of the first tenure lies before that end,
      and the second claim after it. */
  lemma TenuresDisjoint(calls: seq<Call>, k: nat, m: nat, j: string) returns (end: nat)
    requires AllSane(calls) && FreshTokens(calls) && Monotone(calls)
    requires k < m < |calls| && Grants(calls, k, j) && Grants(calls, m, j)
    ensures k < end < m && Releases(calls, end, j)
    ensures HasJob(calls, end, j) && RowAt(calls, end, j).expires.Some?
    ensures (calls[end].TransitionCall? && calls[end].now < RowAt(calls, end, j).expires.value)
         || (calls[end].RecoverCall? && RowAt(calls, end, j).expires.value <= calls[end].now)
    ensures calls[k].now <= calls[end].now <= calls[m].now
    ensures forall i, owner :: 0 <= i < |calls| && LeasedWrite(calls, i, j, owner, calls[k].secret) ==>
      k < i <= end && calls[k].now <= calls[i].now <= calls[end].now
  {
    hide After, Perform, Leased, ReplyAt, Sane, RowAt, HasJob;
    GrantStarts(calls, k, j);
    end := ReleaseBetween(calls, k + 1, m, j);
    ReleasedHow(calls, end, j);
    forall i, owner | 0 <= i < |calls| && LeasedWrite(calls, i, j, owner, calls[k].secret)
      ensures k < i <= end && calls[k].now <= calls[i].now <= calls[end].now
    {
      var latest := LatestClaimantWrites(calls, i, j, owner, calls[k].secret);
      assert latest == k;
      if end < i { SupersededNeverWrites(calls, k, end, i, j, owner); }
    }
  }
}
