/** What each transaction of a control-plane call can do to the row of its job. */
module ControlPlaneRows {
  import opened Text
  import opened Runner
  import opened Jobs
  import opened Runs
  import opened Leases
  import opened Workspaces
  import opened ControlPlane

  /** No control-plane call leads out of these statuses. */
  predicate Dead(s: Status) { s == Failed || s == Cancelled || s == RecoveryRequired }

  /** Only the flag, the expiry and the notes may differ. */
  predicate Untouched(b: Row, a: Row) {
    a.status == b.status && a.token == b.token && a.origin == b.origin && a.summary == b.summary
  }

  predicate Died(b: Row, a: Row) { Dead(a.status) && a.token.None? }

  predicate FreshlyClaimed(b: Row, a: Row, from: Status, token: string) {
    b.status == from && !Guarded(from) && a.status == Status.Claimed && a.token == Some(token) && a.origin == Some(from)
    && a.summary == b.summary
  }

  /** The holder of the lease `token` moves the job on. */
  predicate MovedOn(b: Row, a: Row, target: Status, token: Option<string>) {
    Guarded(b.status) && b.token == token && token.Some? && CanMove(b.status, target) && a.status == target
    && (if Guarded(target) then a.token == b.token && a.origin == b.origin else a.token.None?)
  }

  lemma ClaimFacts(w: World, from: Status, ch: Choice)
    requires LeaseWhole(w.row) && ch.token != ""
    ensures var (row, ok) := Claiming(w, from, ch);
      LeaseWhole(row) && if ok then FreshlyClaimed(w.row, row, from, ch.token) else row == w.row
  {
    hide LeaseWhole, IsLease, IsWorkerId;
    var c := ClaimCall(w.id, ch.owner, ch.token, ch.seconds, {from}, ch.now);
    if Decide(c, w.row).Change? { DecideKeepsLease(c, w.row); }
  }

  predicate Transitioned(b: Row, a: Row, target: Status, token: Option<string>, c: Changes) {
    && CanMove(b.status, target) && a.status == target && a.summary == OrElse(c.summary, b.summary)
    && (!Guarded(target) ==> a.token.None?)
    && (Guarded(b.status) ==> b.token == token && token.Some?)
    && (Guarded(b.status) && Guarded(target) ==> a.token == b.token && a.origin == b.origin)
  }

  lemma TransitionFacts(row: Row, id: string, target: Status, worker: Option<string>, token: Option<string>,
                        c: Changes, now: Time)
    requires LeaseWhole(row)
    ensures var (after, ok) := Transact(row, TransitionCall(id, target, worker, token, c, now));
      LeaseWhole(after) && if ok then Transitioned(row, after, target, token, c) else after == row
  {
    hide IsLease, IsWorkerId, WithoutLease, Noted;
    var call := TransitionCall(id, target, worker, token, c, now);
    if Decide(call, row).Change? {
      DecideKeepsLease(call, row);
      MovedFacts(row, target, c);
    }
  }

  lemma MovedFacts(row: Row, target: Status, c: Changes)
    ensures var m := Moved(row, target, c);
      m.status == target && m.summary == OrElse(c.summary, row.summary)
      && (if Guarded(target) then m.token == row.token && m.origin == row.origin else m.token.None?)
  {
  }

  /** A transition to a dead status by whatever credentials leaves the row as it was or dead. */
  lemma DyingFacts(w: World, seen: Row, target: Status, c: Changes, now: Time)
    requires LeaseWhole(w.row) && Dead(target)
    ensures var row := Owned(w, seen, target, c, now).0; LeaseWhole(row) && (row == w.row || Died(w.row, row))
  {
    hide LeaseWhole, Transact, CanMove, Decide;
    if seen.worker.Some? && seen.token.Some? {
      TransitionFacts(w.row, w.id, target, seen.worker, seen.token, c, now);
    }
  }

  /** A transition to a live status succeeds only with the lease the row holds. */
  lemma OwnedFacts(w: World, seen: Row, target: Status, c: Changes, now: Time)
    requires LeaseWhole(w.row) && (target == Prepared || target == Completed)
    ensures var (row, ok) := Owned(w, seen, target, c, now);
      LeaseWhole(row) && (!ok ==> row == w.row) &&
      (ok ==> MovedOn(w.row, row, target, seen.token) && row.summary == OrElse(c.summary, w.row.summary))
  {
    hide LeaseWhole, Transact, Decide;
    if seen.worker.Some? && seen.token.Some? {
      TransitionFacts(w.row, w.id, target, seen.worker, seen.token, c, now);
    }
  }

  lemma LeasedFacts(w: World, lease: Option<Lease>, target: Status, now: Time)
    requires LeaseWhole(w.row) && (target == Status.Preparing || target == Validating || target == Publishing)
    ensures var (row, ok) := Leased(w, lease, target, now);
      LeaseWhole(row) && (!ok ==> row == w.row) &&
      (ok ==> lease.Some? && MovedOn(w.row, row, target, Some(lease.value.token)) && row.summary == w.row.summary)
  {
    hide LeaseWhole, Transact, Decide;
    if lease.Some? {
      TransitionFacts(w.row, w.id, target, Some(lease.value.owner), Some(lease.value.token), NO_CHANGES, now);
    }
  }

  lemma LeasedDies(w: World, lease: Option<Lease>, now: Time)
    requires LeaseWhole(w.row)
    ensures var row := Leased(w, lease, Cancelled, now).0; LeaseWhole(row) && (row == w.row || Died(w.row, row))
  {
    hide LeaseWhole, Transact, Decide, CanMove;
    if lease.Some? {
      TransitionFacts(w.row, w.id, Cancelled, Some(lease.value.owner), Some(lease.value.token), NO_CHANGES, now);
    }
  }

  lemma BeatFacts(w: World, lease: Option<Lease>, ch: Choice)
    requires LeaseWhole(w.row)
    ensures var (row, ok) := Beating(w, lease, ch);
      LeaseWhole(row) && Untouched(w.row, row) && (!ok ==> row == w.row) &&
      (ok ==> lease.Some? && Guarded(w.row.status) && w.row.token == Some(lease.value.token))
  {
    hide IsLease, IsWorkerId;
  }

  lemma UpdateFacts(w: World, notes: Notes)
    requires LeaseWhole(w.row)
    ensures var row := Transact(w.row, UpdateCall(w.id, Fields(None, None, None, Some(notes)))).0;
      LeaseWhole(row) && Untouched(w.row, row) && row.cancel == w.row.cancel
  {
  }

  lemma CancelFacts(w: World)
    requires LeaseWhole(w.row)
    ensures var row := Transact(w.row, CancelCall(w.id)).0;
      LeaseWhole(row) && (Untouched(w.row, row) || Died(w.row, row))
  {
  }

  lemma RecoverFacts(w: World, reason: string, now: Time)
    requires LeaseWhole(w.row)
    ensures var row := Transact(w.row, RecoverCall(w.id, reason, now)).0;
      LeaseWhole(row) && (row == w.row || Died(w.row, row) || GivenBack(w.row, row))
  {
    hide IsLease, IsWorkerId;
  }

  /** A claim that expired before any phase was entered is undone. */
  predicate GivenBack(b: Row, a: Row) {
    b.status == Status.Claimed && b.origin == Some(a.status) && SafeOrigin(a.status) && a.token.None? && a.summary == b.summary
  }

  lemma DeleteFacts(w: World, now: Time)
    requires LeaseWhole(w.row)
    ensures var row := Transact(w.row, TransitionCall(w.id, WaitingForApproval, None, None, NO_CHANGES, now)).0;
      LeaseWhole(row) && (row == w.row || SetAside(w.row, row))
  {
    hide LeaseWhole, Transact, Decide;
    TransitionFacts(w.row, w.id, WaitingForApproval, None, None, NO_CHANGES, now);
  }

  predicate SetAside(b: Row, a: Row) {
    b.status == Prepared && a.status == WaitingForApproval && a.token.None? && a.summary == b.summary
  }

  lemma FailFacts(w: World, c: Changes, now: Time)
    requires LeaseWhole(w.row)
    ensures var row := Transact(w.row, TransitionCall(w.id, Failed, None, None, c, now)).0;
      LeaseWhole(row) && (row == w.row || Died(w.row, row))
  {
    hide LeaseWhole, Transact, Decide, CanMove;
    TransitionFacts(w.row, w.id, Failed, None, None, c, now);
  }
}
