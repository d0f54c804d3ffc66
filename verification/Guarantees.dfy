/** What the control plane guarantees about every interleaving of its calls. */
module Guarantees {
  import opened Text
  import opened Runner
  import opened Jobs
  import opened Runs
  import opened Leases
  import opened Workspaces
  import opened ControlPlane
  import opened ControlPlaneRows
  import opened ControlPlaneProofs

  // ---------------------------------------------------------------- validation

  /** For every interleaving of any calls, the validation of a job is started at most once. */
  lemma ValidationStartsOnce(start: World, moves: seq<Move>)
    requires Initial(start)
    ensures WorldAfter(start, moves).validations <= 1
  {
    hide WorldAfter, Initial, RowOk, TokensOk, PointsOk, PairsOk;
    ReachableOk(start, moves);
  }

  /** A job that is completed, being published, or claimed out of completion stores a summary with exactly
      one passed check for every mandatory action, and there is at least one. */
  lemma CompletedMeansValidated(start: World, moves: seq<Move>)
    requires Initial(start)
    ensures var w := WorldAfter(start, moves);
      w.row.status == Completed || w.row.status == Publishing || (Guarded(w.row.status) && w.row.origin == Some(Completed)) ==>
      w.row.summary.Some? && Proves(w.row.summary.value) && w.row.summary.value.mandatory == w.actions
  {
    hide WorldAfter, Initial, TokensOk, StageOk, PointsOk, PairsOk, LeaseWhole, Proves;
    ReachableOk(start, moves);
  }

  // ---------------------------------------------------------------- the workspace

  lemma FrozenStays(w: World, m: Move)
    requires WorldOk(w) && w.frozen.Some?
    ensures Advance(w, m).frozen == w.frozen && Advance(w, m).workspace == w.workspace
    ensures Advance(w, m).baseline == w.baseline
  {
    hide PointsOk, PairsOk, RowOk, TokensOk, StepProc, Affected, Transact, ClaimsNext, PointOk;
    match m
    case Go(p, ch) =>
      if Enabled(w, p, ch) {
        hide StageOk;
        GoStands(w, p, ch);
      }
    case EditWorkspace(files) => assert w.row.status == Prepared ==> Phase(w.row) == 2;
    case _ =>
  }

  lemma {:induction false} FrozenForGood(start: World, moves: seq<Move>, a: nat, b: nat)
    requires Initial(start) && a <= b <= |moves| && WorldAfter(start, moves[..a]).frozen.Some?
    ensures var u, v := WorldAfter(start, moves[..a]), WorldAfter(start, moves[..b]);
      v.frozen == u.frozen && v.workspace == u.workspace && v.baseline == u.baseline
    decreases b - a
  {
    hide Advance, WorldOk, Initial;
    if a < b {
      FrozenForGood(start, moves, a, b - 1);
      ReachableOk(start, moves[..b - 1]);
      FrozenStays(WorldAfter(start, moves[..b - 1]), moves[b - 1]);
      assert moves[..b][..b - 1] == moves[..b - 1];
    }
  }

  /** Once a job was validating, no gateway operation changes its workspace again. */
  lemma WorkspaceFixedByValidation(start: World, moves: seq<Move>, a: nat, b: nat)
    requires Initial(start) && a <= b <= |moves| && WorldAfter(start, moves[..a]).row.status == Validating
    ensures WorldAfter(start, moves[..b]).workspace == WorldAfter(start, moves[..a]).workspace
  {
    hide WorldAfter, Initial, RowOk, TokensOk, PointsOk, PairsOk;
    ReachableOk(start, moves[..a]);
    FrozenForGood(start, moves, a, b);
  }

  // ---------------------------------------------------------------- publication

  /** Every copy and every commit of a publication comes right after a successful heartbeat on its own
      lease and a look at the cancellation flag. */
  lemma EveryCopyIsGuarded(start: World, moves: seq<Move>, p: nat)
    requires Initial(start)
    ensures var w := WorldAfter(start, moves);
      p in w.procs && w.procs[p].Publish? ==> WellPaced(w.procs[p].trace)
  {
    hide WorldAfter, Initial, RowOk, TokensOk, StageOk, PairsOk, WellPaced, CommitsOk;
    ReachableOk(start, moves);
    var w := WorldAfter(start, moves);
    if p in w.procs { assert PointOk(w, p, w.procs[p]); }
  }

  lemma {:induction false} PathsMentioned(changes: seq<Change>, path: string)
    ensures path in Paths(changes) <==> Mentions(changes, path)
  {
    if path in Paths(changes) {
      var i :| 0 <= i < |Paths(changes)| && Paths(changes)[i] == path;
      assert changes[i].path == path;
    }
    if Mentions(changes, path) {
      var i :| 0 <= i < |changes| && changes[i].path == path;
      assert Paths(changes)[i] == path;
    }
  }

  lemma CommitFacts(w: World, p: nat)
    requires WorldOk(w) && p in w.procs && w.procs[p].Publish? && w.procs[p].commit.Some?
    ensures var proc := w.procs[p];
      && w.frozen == Some(w.workspace) && ExactDiff(w.baseline, w.workspace, proc.changes)
      && CommitStands(w.baseline, w.workspace, proc) && CopiedPaths(proc.trace) == Paths(proc.changes) && FreshAtDiff(w, proc)
  {
    hide RowOk, TokensOk, PairsOk, WellPaced, EndsWith, CopiedPaths, Holding, JustClaimed, OthersStand, CopiesStand, ExactDiff,
      FreshAtDiff;
    StandsAt(w, p);
    hide PointsOk;
  }

  /** The foreign writes that matter for a path: those since its copy, or since the diff if it was not copied. */
  function WritesSince(proc: Proc, path: string): (r: seq<Write>)
    requires proc.Publish? && proc.commit.Some?
  {
    var foreign := proc.commit.value.foreign;
    var from := if path in CopiedPaths(proc.trace) then CopyAt(proc.trace, path) else proc.since;
    if from <= |foreign| then foreign[from..] else []
  }

  /** When a publication commits, the source is what it was at the diff with every changed file of the
      validated workspace copied over it, but for what others wrote to a path since its copy or the diff. */
  lemma CommitHoldsDiff(w: World, p: nat, path: string)
    requires WorldOk(w) && p in w.procs && w.procs[p].Publish? && w.procs[p].commit.Some?
    ensures var proc := w.procs[p];
      && w.frozen == Some(w.workspace) && NoDeletion(proc.changes) && ExactDiff(w.baseline, w.workspace, proc.changes)
      && Lookup(proc.commit.value.source, path) ==
           Latest(WritesSince(proc, path), path, Lookup(Published(proc.sourceAtDiff, w.workspace, proc.changes), path))
  {
    hide WorldOk, Published, CopiedPaths, CopyAt, Latest, Paths;
    var proc := w.procs[p];
    CommitFacts(w, p);
    ChangesCopied(w, p);
    PathsMentioned(proc.changes, path);
    PublishedAt(proc.sourceAtDiff, w.workspace, proc.changes, path);
  }

  /** Everything on the change list was copied, so nothing on it was a deletion. */
  lemma ChangesCopied(w: World, p: nat)
    requires WorldOk(w) && p in w.procs && w.procs[p].Publish? && w.procs[p].commit.Some?
    ensures NoDeletion(w.procs[p].changes)
    ensures forall i :: 0 <= i < |w.procs[p].changes| ==> w.procs[p].changes[i].path in w.workspace
  {
    hide WorldOk, CopiedPaths, CopyAt, Latest, OthersStand;
    CommitFacts(w, p);
    forall i | 0 <= i < |w.procs[p].changes| ensures w.procs[p].changes[i].path in w.workspace {
      assert Paths(w.procs[p].changes)[i] in Paths(w.procs[p].changes);
    }
  }

  /** Both have no file, or files with one digest. */
  predicate Alike(sha: Hash, a: Option<string>, b: Option<string>) {
    (a.Some? <==> b.Some?) && (a.Some? ==> sha(a.value) == sha(b.value))
  }

  /** Nobody else wrote to the path, or the last one who did left a file like the one that was there. */
  predicate Undisturbed(sha: Hash, writes: seq<Write>, path: string, there: Option<string>) {
    Alike(sha, Latest(writes, path, there), there)
  }

  lemma AgreeMeansAlike(sha: Hash, a: Contents, b: Contents, path: string)
    ensures AgreeAt(sha, a, b, path) <==> Alike(sha, Lookup(a, path), Lookup(b, path))
  {
  }

  lemma {:induction false} LatestOfNone(writes: seq<Write>, path: string, before: Option<string>)
    requires forall i :: 0 <= i < |writes| ==> writes[i].path != path
    ensures Latest(writes, path, before) == before
  {
    if writes != [] { LatestOfNone(writes[..|writes| - 1], path, before); }
  }

  /** Two files that were alike stay alike under the same writes; so it does not matter from which one counts. */
  lemma {:induction false} LatestAlike(sha: Hash, writes: seq<Write>, path: string, a: Option<string>, b: Option<string>)
    requires Alike(sha, a, b)
    ensures Alike(sha, Latest(writes, path, a), Latest(writes, path, b))
  {
    if writes != [] { LatestAlike(sha, writes[..|writes| - 1], path, a, b); }
  }

  lemma AlikeChain(sha: Hash, a: Option<string>, b: Option<string>, c: Option<string>)
    requires Alike(sha, a, b)
    ensures Alike(sha, b, a) && (Alike(sha, a, c) <==> Alike(sha, b, c))
  {
  }

  /** Published equals validated, path by path: in every commit a path that the patterns do not hide agrees
      with the validated workspace, up to digest collisions, exactly if no other job or hand left something
      else there since it was copied or, for a path that did not change, since the diff. */
  lemma PublishedEqualsValidated(start: World, moves: seq<Move>, p: nat, path: string)
    requires Initial(start)
    requires var w := WorldAfter(start, moves);
      p in w.procs && w.procs[p].Publish? && w.procs[p].commit.Some? && !Hidden(w.hidden, path)
    ensures var w := WorldAfter(start, moves); var proc := w.procs[p];
      w.frozen.Some? &&
      (AgreeAt(w.sha, proc.commit.value.source, w.frozen.value, path) <==>
       Undisturbed(w.sha, WritesSince(proc, path), path, Lookup(w.frozen.value, path)))
  {
    hide WorldAfter, Initial, WorldOk, Stale, Published, ExactDiff, Hidden, NoDeletion, AgreeAt, WritesSince, Alike, Latest, Lookup,
      Digests, Visible, CommitStands;
    var w := WorldAfter(start, moves);
    var proc := w.procs[p];
    ReachableOk(start, moves);
    CommitFacts(w, p);
    CommitHoldsDiff(w, p, path);
    var published := Published(proc.sourceAtDiff, w.workspace, proc.changes);
    SameDigestsNotStale(Digests(w.sha, w.baseline), Digests(w.sha, Visible(proc.sourceAtDiff, w.hidden)));
    PublishedAgrees(w.sha, proc.sourceAtDiff, w.baseline, w.workspace, w.hidden, proc.changes, None, None, path);
    AgreeMeansAlike(w.sha, published, w.workspace, path);
    AgreeMeansAlike(w.sha, proc.commit.value.source, w.workspace, path);
    LatestAlike(w.sha, WritesSince(proc, path), path, Lookup(published, path), Lookup(w.workspace, path));
    AlikeChain(w.sha, Latest(WritesSince(proc, path), path, Lookup(published, path)),
               Latest(WritesSince(proc, path), path, Lookup(w.workspace, path)), Lookup(w.workspace, path));
  }

  lemma SameDigestsNotStale(recorded: Contents, current: Contents)
    requires recorded == current
    ensures !Stale(recorded, current, None, None)
  {
    hide ChangedPaths;
    NoChangedPaths(recorded, current);
  }

  /** So a path into which nobody else wrote is published exactly as it was validated. */
  lemma UndisturbedPublication(start: World, moves: seq<Move>, p: nat, path: string)
    requires Initial(start)
    requires var w := WorldAfter(start, moves);
      p in w.procs && w.procs[p].Publish? && w.procs[p].commit.Some? && !Hidden(w.hidden, path)
    requires var proc := WorldAfter(start, moves).procs[p];
      forall i :: 0 <= i < |WritesSince(proc, path)| ==> WritesSince(proc, path)[i].path != path
    ensures var w := WorldAfter(start, moves);
      w.frozen.Some? && AgreeAt(w.sha, w.procs[p].commit.value.source, w.frozen.value, path)
  {
    hide WorldAfter, Initial, Hidden, AgreeAt, WritesSince, Latest;
    var w := WorldAfter(start, moves);
    PublishedEqualsValidated(start, moves, p, path);
    LatestOfNone(WritesSince(w.procs[p], path), path, Lookup(w.frozen.value, path));
  }

  // ---------------------------------------------------------------- partial publication

  /** Publication `p` has copied files into the source and has not finished. */
  predicate Unfinished(w: World, p: nat) { p in w.procs && Engaged(w.procs[p]) && CopiedPaths(w.procs[p].trace) != [] }

  predicate InPhase(w: World, p: nat) { p in w.procs && Engaged(w.procs[p]) }

  /** The job is reported as if nothing had been copied. */
  predicate Hides(s: Status) { s == Cancelled || s == Failed }

  /** A failure handler with these credentials may end the job: it holds the lease the row carries, before its
      expiry, and a flagged job it only cancels; or the job waits for recovery, where no lease is asked for. */
  predicate Permits(row: Row, target: Status, worker: Option<string>, token: Option<string>, now: Time) {
    || (row.status == Publishing && row.worker == worker && row.token == token && row.expires.Some? && now < row.expires.value
        && (row.cancel ==> target == Cancelled))
    || row.status == RecoveryRequired
  }

  predicate HandlerPermitted(row: Row, seen: Row, target: Status, now: Time) {
    seen.worker.Some? && seen.token.Some? && Permits(row, target, seen.worker, seen.token, now)
  }

  /** The steps that end an unfinished publication as cancelled or failed, as a caller can tell beforehand: a
      cancellation request while the job waits for recovery; or the failure handler of a prepare call, of a
      validate call that saw the flag, or of a publish call that saw the flag and copied nothing itself, when
      the row it read gives it what the store asks for. */
  predicate HidingStep(w: World, m: Move) {
    if m.Cancel? then w.row.status == RecoveryRequired
    else m.Go? && m.p in w.procs && Cleanup(w.row, w.procs[m.p], m.ch.now)
  }

  predicate Cleanup(row: Row, proc: Proc, now: Time) {
    if proc.Prepare? then
      proc.pp.PFailing? &&
      if Guarded(proc.pp.seen.status) then HandlerPermitted(row, proc.pp.seen, Failed, now) else row.status == RecoveryRequired
    else if proc.Validate? then
      proc.vp.VFailing? && proc.vp.seen.cancel && HandlerPermitted(row, proc.vp.seen, Cancelled, now)
    else
      proc.bp.BFailing? && proc.bp.seen.cancel && CopiedPaths(proc.trace) == []
      && HandlerPermitted(row, proc.bp.seen, Cancelled, now)
  }

  predicate Open(row: Row) { LeaseWhole(row) && (row.status == Publishing || row.status == RecoveryRequired) }

  lemma TransitionHides(row: Row, id: string, target: Status, worker: Option<string>, token: Option<string>, c: Changes, now: Time)
    requires Open(row) && Hides(target)
    ensures var (after, ok) := Transact(row, TransitionCall(id, target, worker, token, c, now));
      (ok <==> Permits(row, target, worker, token, now)) && after.status == if ok then target else row.status
  {
    hide Noted, WithoutLease;
    MovedFacts(row, target, c);
  }

  lemma OwnedHides(w: World, seen: Row, target: Status, c: Changes, now: Time)
    requires Open(w.row) && Hides(target)
    ensures Owned(w, seen, target, c, now).0.status ==
      if HandlerPermitted(w.row, seen, target, now) then target else w.row.status
  {
    hide Transact, Open, Permits;
    if seen.worker.Some? && seen.token.Some? { TransitionHides(w.row, w.id, target, seen.worker, seen.token, c, now); }
  }

  lemma NoCredentials(row: Row, now: Time)
    requires Open(row)
    ensures Permits(row, Failed, None, None, now) <==> row.status == RecoveryRequired
  {
  }

  /** A transition to any other status that an open job can make. */
  lemma TransitionOpen(row: Row, id: string, target: Status, worker: Option<string>, token: Option<string>, c: Changes, now: Time)
    requires Open(row) && !Hides(target) && target != Queued
    ensures var after := Transact(row, TransitionCall(id, target, worker, token, c, now)).0;
      after == row || (row.status == Publishing && after.status == target && (target == Completed || target == RecoveryRequired))
  {
    hide LeaseError, Moved;
    MovedFacts(row, target, c);
  }

  lemma OwnedOpen(w: World, seen: Row, target: Status, c: Changes, now: Time)
    requires Open(w.row) && !Hides(target) && target != Queued
    ensures var after := Owned(w, seen, target, c, now).0;
      after == w.row || (w.row.status == Publishing && after.status == target && (target == Completed || target == RecoveryRequired))
  {
    hide Transact, Open;
    if seen.worker.Some? && seen.token.Some? { TransitionOpen(w.row, w.id, target, seen.worker, seen.token, c, now); }
  }

  lemma LeasedOpen(w: World, lease: Option<Lease>, target: Status, now: Time)
    requires Open(w.row) && Guarded(target)
    ensures Leased(w, lease, target, now).0 == w.row
  {
    hide Transact, Open;
    if lease.Some? {
      TransitionOpen(w.row, w.id, target, Some(lease.value.owner), Some(lease.value.token), NO_CHANGES, now);
    }
  }

  lemma NoClaimWhileOpen(w: World, from: Status, ch: Choice)
    requires w.row.status == Publishing || w.row.status == RecoveryRequired
    ensures Claiming(w, from, ch) == (w.row, false)
  {
    hide IsLease, IsWorkerId;
  }

  /** No call prepares or validates a job while a publication is in its phase. */
  lemma OthersElsewhere(w: World, p: nat, q: nat)
    requires WorldOk(w) && InPhase(w, p) && q in w.procs
    ensures w.procs[q].Prepare? ==> !InPreparing(w.procs[q].pp)
    ensures w.procs[q].Validate? ==> !InValidating(w.procs[q].vp)
    ensures w.procs[q].Publish? && InPublishing(w.procs[q].bp) ==> q == p || w.row.status == RecoveryRequired || Hides(w.row.status)
  {
    hide RowOk, StageOk, DiffOk, TraceOk, SummaryOk, JustClaimed;
    StandsAt(w, p);
    StandsAt(w, q);
    hide PointsOk;
    TraceHolds(w.procs[p]);
    if w.procs[q].Publish? { TraceHolds(w.procs[q]); }
    assert PastRead(w.procs[p]);
    assert q != p ==> !Rivals(w.procs[p], w.procs[q]);
  }

  /** What a step leaves of an open job: it hides the publication exactly if it is a hiding step, and
      completes it only as the publication's own last step. */
  predicate Left(w: World, m: Move, p: nat, after: Row) {
    && (Hides(after.status) <==> HidingStep(w, m))
    && (after.status == Publishing || after.status == RecoveryRequired || Hides(after.status)
        || (after.status == Completed && m.Go? && m.p == p && p in w.procs && w.procs[p].Publish? && w.procs[p].bp.BEnd?))
  }

  lemma PrepareOnOpen(w: World, p: nat, q: nat, ch: Choice)
    requires WorldOk(w) && InPhase(w, p) && Open(w.row) && q in w.procs && w.procs[q].Prepare?
    ensures Left(w, Go(q, ch), p, StepPrepare(w, w.procs[q], ch).row)
  {
    hide WorldOk, Claiming, Leased, Owned, Transact, Open, HandlerPermitted, Permits, CopiedPaths;
    OthersElsewhere(w, p, q);
    OpenStatus(w.row);
    var proc := w.procs[q];
    match proc.pp
    case PClaim => NoClaimWhileOpen(w, Queued, ch);
    case PPhase => LeasedOpen(w, proc.lease, Status.Preparing, ch.now);
    case PFailing(seen) =>
      OwnedHides(w, seen, Failed, Texts(ch.notes), ch.now);
      TransitionHides(w.row, w.id, Failed, None, None, Texts(ch.notes), ch.now);
      NoCredentials(w.row, ch.now);
    case _ =>
  }

  lemma OpenStatus(row: Row)
    requires Open(row)
    ensures row.status == Publishing || row.status == RecoveryRequired
  {
  }

  lemma ValidateOnOpen(w: World, p: nat, q: nat, ch: Choice)
    requires WorldOk(w) && InPhase(w, p) && Open(w.row) && q in w.procs && w.procs[q].Validate?
    ensures Left(w, Go(q, ch), p, StepValidate(w, w.procs[q], ch).row)
  {
    hide WorldOk, Claiming, Leased, Owned, Beating, Transact, Open, HandlerPermitted, Genuine, CopiedPaths, Answered, CanComplete,
      Closing;
    OthersElsewhere(w, p, q);
    OpenStatus(w.row);
    var proc := w.procs[q];
    match proc.vp
    case VClaim => NoClaimWhileOpen(w, Prepared, ch);
    case VPhase => LeasedOpen(w, proc.lease, Validating, ch.now);
    case VFailing(seen) =>
      if seen.cancel { OwnedHides(w, seen, Cancelled, Texts(ch.notes), ch.now); }
      else { OwnedOpen(w, seen, RecoveryRequired, Texts(ch.notes), ch.now); }
    case _ =>
  }

  lemma PublishOnOpen(w: World, p: nat, q: nat, ch: Choice)
    requires WorldOk(w) && InPhase(w, p) && Open(w.row) && q in w.procs && w.procs[q].Publish?
    ensures Left(w, Go(q, ch), p, StepPublish(w, w.procs[q], ch).row)
  {
    hide WorldOk, Claiming, Leased, Owned, Beating, Transact, HandlerPermitted, CopiedPaths, ExactDiff, SourceStale, Answered, CanComplete,
      Closing, LeaseWhole;
    OthersElsewhere(w, p, q);
    OpenStatus(w.row);
    var proc := w.procs[q];
    match proc.bp
    case BClaim => NoClaimWhileOpen(w, Completed, ch);
    case BPhase => LeasedOpen(w, proc.lease, Publishing, ch.now);
    case BBeat(i) => BeatFacts(w, proc.lease, ch);
    case BEnd(seen) => OwnedOpen(w, seen, Completed, NO_CHANGES, ch.now);
    case BFailing(seen) =>
      if seen.cancel && CopiedPaths(proc.trace) == [] { OwnedHides(w, seen, Cancelled, Texts(ch.notes), ch.now); }
      else { OwnedOpen(w, seen, RecoveryRequired, Texts(ch.notes), ch.now); }
    case _ =>
  }

  lemma NobodyOnOpen(w: World, p: nat, m: Move)
    requires Open(w.row) && !m.Go?
    ensures Left(w, m, p, Advance(w, m).row)
  {
    hide LeaseWhole, Transact;
    match m
    case Cancel => CancelOnOpen(w);
    case RecoverMove(reason, now) => RecoverOnOpen(w, reason, now);
    case RequestDelete(now) => TransitionOpen(w.row, w.id, WaitingForApproval, None, None, NO_CHANGES, now);
    case _ =>
  }

  lemma CancelOnOpen(w: World)
    requires w.row.status == Publishing || w.row.status == RecoveryRequired
    ensures Transact(w.row, CancelCall(w.id)).0.status == if w.row.status == Publishing then Publishing else Cancelled
  {
  }

  lemma RecoverOnOpen(w: World, reason: string, now: Time)
    requires Open(w.row)
    ensures Transact(w.row, RecoverCall(w.id, reason, now)).0.status ==
      if w.row.status == Publishing && w.row.expires.GetOr(0) > now then Publishing else RecoveryRequired
  {
    hide IsLease, IsWorkerId;
  }

  /** How a step of anybody leaves the job of a publication in its phase. Cancelled or failed, as if nothing
      had been copied, exactly by a hiding step; completed only by the publication's own last step. */
  lemma TornPublicationEnds(w: World, m: Move, p: nat)
    requires WorldOk(w) && InPhase(w, p) && (w.row.status == Publishing || w.row.status == RecoveryRequired)
    ensures Left(w, m, p, Advance(w, m).row)
  {
    hide WorldOk, StepPrepare, StepValidate, StepPublish, Left, Open;
    OpenRow(w);
    if !m.Go? {
      NobodyOnOpen(w, p, m);
    } else if m.p in w.procs && Enabled(w, m.p, m.ch) {
      GoesTo(w, m.p, m.ch);
      if w.procs[m.p].Prepare? {
        PrepareOnOpen(w, p, m.p, m.ch);
      } else if w.procs[m.p].Validate? {
        ValidateOnOpen(w, p, m.p, m.ch);
      } else {
        PublishOnOpen(w, p, m.p, m.ch);
      }
    } else {
      NotEnabledStays(w, m, p);
    }
  }

  lemma OpenRow(w: World)
    requires WorldOk(w) && (w.row.status == Publishing || w.row.status == RecoveryRequired)
    ensures Open(w.row)
  {
    hide WorldOk;
    WholeRow(w);
  }

  lemma NotEnabledStays(w: World, m: Move, p: nat)
    requires m.Go? && !Enabled(w, m.p, m.ch) && (w.row.status == Publishing || w.row.status == RecoveryRequired)
    ensures Left(w, m, p, Advance(w, m).row)
  {
    hide StepProc, CopiedPaths, Permits;
  }

  // ---------------------------------------------------------------- the same over whole runs

  /** A step keeps what a publication has done. */
  lemma TraceGrows(w: World, m: Move, p: nat)
    requires p in w.procs && w.procs[p].Publish?
    ensures var u := Advance(w, m); p in u.procs && u.procs[p].Publish? && w.procs[p].trace <= u.procs[p].trace
  {
    hide StepPrepare, StepValidate, StepPublish, Affected, Transact, ClaimsNext;
    if m.Go? && Enabled(w, m.p, m.ch) { GoesTo(w, m.p, m.ch); }
  }

  /** A publication enters its phase by one step, which leaves the job publishing. */
  lemma EntersPhase(w: World, m: Move, p: nat)
    requires WorldOk(w) && !InPhase(w, p) && InPhase(Advance(w, m), p)
    ensures p in w.procs && w.procs[p].Publish? && w.procs[p].trace == []
    ensures Advance(w, m).row.status == Publishing
  {
    hide StepPrepare, StepValidate, StepPublish, WorldOk, Engaged, Leased, Claiming, TraceOk;
    if m.Go? && Enabled(w, m.p, m.ch) {
      GoesTo(w, m.p, m.ch);
      if m.p == p {
        KindsStay(w, p, m.ch);
        StandsAt(w, p);
        EngagesInPhase(w, w.procs[p], m.ch);
        TraceHolds(w.procs[p]);
        PhaseEntered(w, w.procs[p], m.ch);
      }
    } else {
      NewcomersIdle(w, m, p);
    }
  }

  lemma KindsStay(w: World, p: nat, ch: Choice)
    requires p in w.procs
    ensures StepProc(w, w.procs[p], ch).proc.Publish? <==> w.procs[p].Publish?
    ensures Engaged(StepProc(w, w.procs[p], ch).proc) ==> w.procs[p].Publish?
  {
    hide StepPrepare, StepValidate, StepPublish;
  }

  lemma PhaseEntered(w: World, proc: Proc, ch: Choice)
    requires proc.Publish? && proc.bp.BPhase? && Leased(w, proc.lease, Publishing, ch.now).1
    ensures StepPublish(w, proc, ch).row.status == Publishing
  {
    hide CopiedPaths, ExactDiff, Noted, LeaseError;
  }

  lemma NewcomersIdle(w: World, m: Move, p: nat)
    requires m.Go? ==> !Enabled(w, m.p, m.ch)
    ensures InPhase(Advance(w, m), p) ==> InPhase(w, p)
  {
    hide StepProc, Transact, ClaimsNext;
  }

  /** Step `i` of the run hides publication `p`, which is in its phase then. */
  ghost predicate HiddenBy(start: World, moves: seq<Move>, i: nat, p: nat)
    requires i < |moves|
  {
    InPhase(WorldAfter(start, moves[..i]), p) && HidingStep(WorldAfter(start, moves[..i]), moves[i])
  }

  lemma AfterSnoc(start: World, moves: seq<Move>, n: nat)
    requires n < |moves|
    ensures WorldAfter(start, moves[..n + 1]) == Advance(WorldAfter(start, moves[..n]), moves[n])
  {
    hide Advance;
    assert moves[..n + 1][..n] == moves[..n];
  }

  lemma {:induction false} TraceStays(start: World, moves: seq<Move>, a: nat, b: nat, p: nat)
    requires a <= b <= |moves|
    requires p in WorldAfter(start, moves[..a]).procs && WorldAfter(start, moves[..a]).procs[p].Publish?
    ensures var u, v := WorldAfter(start, moves[..a]), WorldAfter(start, moves[..b]);
      p in v.procs && v.procs[p].Publish? && u.procs[p].trace <= v.procs[p].trace
    decreases b - a
  {
    hide WorldAfter, Advance;
    if a < b {
      TraceStays(start, moves, a, b - 1, p);
      AfterSnoc(start, moves, b - 1);
      TraceGrows(WorldAfter(start, moves[..b - 1]), moves[b - 1], p);
    }
  }

  lemma HiddenStays(w: World, m: Move)
    requires Hides(w.row.status)
    ensures Hides(Advance(w, m).row.status)
  {
    hide StepPrepare, StepValidate, StepPublish, Transact, Affected, ClaimsNext;
    if m.Go? && Enabled(w, m.p, m.ch) {
      GoesTo(w, m.p, m.ch);
      DeadEnd(w, w.procs[m.p], m.ch);
    } else if m.Cancel? {
      EndedStays(w.row, CancelCall(w.id));
    } else if m.RecoverMove? {
      EndedStays(w.row, RecoverCall(w.id, m.reason, m.now));
    } else if m.RequestDelete? {
      EndedStays(w.row, TransitionCall(w.id, WaitingForApproval, None, None, NO_CHANGES, m.now));
    }
  }

  lemma EndedStays(row: Row, c: Call)
    requires Hides(row.status)
    ensures Transact(row, c).0.status == row.status
  {
    hide IsLease, IsWorkerId, Noted, WithoutLease, LeaseError;
  }

  lemma DeadEnd(w: World, proc: Proc, ch: Choice)
    requires Hides(w.row.status)
    ensures StepProc(w, proc, ch).row.status == w.row.status
  {
    hide Transact, Genuine, Summarize, ExactDiff, CopiedPaths, SourceStale, Answered, CanComplete, Closing, Final, FinalStatus;
    forall c: Call ensures Transact(w.row, c).0.status == w.row.status { EndedStays(w.row, c); }
  }

  /** While a publication is in its phase, or was left half-way, the job is being published, waits for
      recovery, or is cancelled or failed; and it is cancelled or failed exactly if the run holds a hiding step
      since the publication entered its phase. */
  lemma {:induction false} PhaseReported(start: World, moves: seq<Move>, n: nat, p: nat)
    requires Initial(start) && n <= |moves| && InPhase(WorldAfter(start, moves[..n]), p)
    ensures var status := WorldAfter(start, moves[..n]).row.status;
      && (status == Publishing || status == RecoveryRequired || Hides(status))
      && (Hides(status) <==> exists i :: 0 <= i < n && HiddenBy(start, moves, i, p))
    decreases n
  {
    hide WorldAfter, Advance, WorldOk, Initial, InPhase, HidingStep, Hides;
    if n == 0 {
      NoPhaseAtStart(start, moves, p);
    } else {
      var w, u := WorldAfter(start, moves[..n - 1]), WorldAfter(start, moves[..n]);
      AfterSnoc(start, moves, n - 1);
      ReachableOk(start, moves[..n - 1]);
      if InPhase(w, p) {
        PhaseReported(start, moves, n - 1, p);
        StillReported(w, moves[n - 1], p);
        if Hides(u.row.status) && !Hides(w.row.status) { assert HiddenBy(start, moves, n - 1, p); }
      } else {
        EntersPhase(w, moves[n - 1], p);
        PublishingShows();
        forall i | 0 <= i < n - 1 ensures !HiddenBy(start, moves, i, p) { NotEarlier(start, moves, i, n - 1, p); }
      }
    }
  }

  lemma PublishingShows()
    ensures !Hides(Publishing)
  {
  }

  lemma NoPhaseAtStart(start: World, moves: seq<Move>, p: nat)
    requires Initial(start)
    ensures !InPhase(WorldAfter(start, moves[..0]), p)
  {
    assert moves[..0] == [];
  }

  lemma StillReported(w: World, m: Move, p: nat)
    requires WorldOk(w) && InPhase(w, p) && InPhase(Advance(w, m), p)
    requires w.row.status == Publishing || w.row.status == RecoveryRequired || Hides(w.row.status)
    ensures var status := Advance(w, m).row.status;
      && (status == Publishing || status == RecoveryRequired || Hides(status))
      && (Hides(status) <==> Hides(w.row.status) || HidingStep(w, m))
  {
    hide WorldOk, Advance, HidingStep, Engaged;
    if Hides(w.row.status) {
      HiddenStays(w, m);
    } else {
      TornPublicationEnds(w, m, p);
      if m.Go? && m.p == p && w.procs[p].Publish? && w.procs[p].bp.BEnd? { EndLeavesPhase(w, p, m.ch); }
    }
  }

  /** A publication whose last step completes the job is finished. */
  lemma EndLeavesPhase(w: World, p: nat, ch: Choice)
    requires p in w.procs && w.procs[p].Publish? && w.procs[p].bp.BEnd? && w.row.status != Completed
    ensures Advance(w, Go(p, ch)).row.status == Completed ==> !InPhase(Advance(w, Go(p, ch)), p)
  {
    hide StepPublish, Affected;
    GoesTo(w, p, ch);
    EndFinishes(w, w.procs[p], ch);
  }

  lemma EndFinishes(w: World, proc: Proc, ch: Choice)
    requires proc.Publish? && proc.bp.BEnd? && w.row.status != Completed
    ensures StepPublish(w, proc, ch).row.status == Completed ==> Finished in StepPublish(w, proc, ch).proc.trace
  {
    hide Decide, CopiedPaths, ExactDiff;
  }

  /** A publication that has taken no act yet was in no phase before. */
  lemma NotEarlier(start: World, moves: seq<Move>, i: nat, n: nat, p: nat)
    requires i <= n <= |moves|
    requires var w := WorldAfter(start, moves[..n]); p in w.procs && w.procs[p].Publish? && w.procs[p].trace == []
    ensures !InPhase(WorldAfter(start, moves[..i]), p)
  {
    hide WorldAfter;
    if InPhase(WorldAfter(start, moves[..i]), p) { TraceStays(start, moves, i, n, p); }
  }

  /** What a job is reported as when a publication has copied files and has not finished, be it at work, failed
      or abandoned: still publishing with its own lease, left for recovery, or cancelled or failed. The last
      two happen exactly if, since the publication entered its phase, the run holds a cancellation request made
      while the job waited for recovery, or a failure handler that had what the store asks for. */
  lemma PartialPublicationReported(start: World, moves: seq<Move>, p: nat)
    requires Initial(start) && Unfinished(WorldAfter(start, moves), p)
    ensures var w := WorldAfter(start, moves); var status := w.row.status;
      && ((status == Publishing && w.procs[p].lease.Some? && w.row.token == Some(w.procs[p].lease.value.token))
          || status == RecoveryRequired || status == Cancelled || status == Failed)
      && (status == Cancelled || status == Failed <==> exists i :: 0 <= i < |moves| && HiddenBy(start, moves, i, p))
  {
    hide WorldAfter, WorldOk, Initial, HiddenBy, CopiedPaths, TraceOk, DiffOk;
    assert moves[..|moves|] == moves;
    PhaseReported(start, moves, |moves|, p);
    ReachableOk(start, moves);
    StandsAt(WorldAfter(start, moves), p);
  }

  /** Publication `p` has copied files, and the job is being published. */
  predicate Torn(w: World, p: nat) { Unfinished(w, p) && w.row.status == Publishing }

  /** A publication itself never reports a partial copy as clean: by its own steps the job stays in
      publishing, is completed, or is left for recovery. */
  lemma OwnStepNeverHides(w: World, p: nat, ch: Choice)
    requires WorldOk(w) && Torn(w, p)
    ensures var status := Advance(w, Go(p, ch)).row.status;
      status == Publishing || status == Completed || status == RecoveryRequired
  {
    hide WorldOk, Advance, Permits;
    TornPublicationEnds(w, Go(p, ch), p);
    assert !HidingStep(w, Go(p, ch));
  }

  /** The first way to hide a partial copy needs nobody else: the lease expires, the job is recovered, and a
      cancellation request ends it at once; the publication then fails at its next heartbeat. */
  lemma RecoverThenCancel(w: World, p: nat, reason: string, now: Time, ch: Choice)
    requires WorldOk(w) && Torn(w, p) && w.procs[p].bp.BBeat? && w.row.expires.GetOr(0) <= now
    ensures var a := Advance(w, RecoverMove(reason, now)); var b := Advance(a, Cancel); var c := Advance(b, Go(p, ch));
      && !HidingStep(w, RecoverMove(reason, now)) && HidingStep(a, Cancel)
      && c.row.status == Cancelled && p in c.procs && c.procs[p] == w.procs[p].(bp := BFail)
  {
    hide WorldOk, CopiedPaths, Transact, ExactDiff, Beating;
    OpenRow(w);
    RecoverOnOpen(w, reason, now);
    var a := Advance(w, RecoverMove(reason, now));
    assert a.procs == w.procs && a.row.status == RecoveryRequired;
    CancelOnOpen(a);
    var b := Advance(a, Cancel);
    assert b.procs == w.procs && b.row.status == Cancelled;
    NoBeatWhenCancelled(b, b.procs[p].lease, ch);
  }

  lemma NoBeatWhenCancelled(w: World, lease: Option<Lease>, ch: Choice)
    requires w.row.status == Cancelled
    ensures Beating(w, lease, ch) == (w.row, false)
  {
    hide IsLease, IsWorkerId;
  }

  lemma LoserTransition(w: World, now: Time, c: Changes)
    requires LeaseWhole(w.row) && w.row.status == Publishing && now < w.row.expires.GetOr(0)
    ensures Owned(w, w.row, Cancelled, c, now).0.status == Cancelled
  {
    hide IsLease, IsWorkerId;
  }

  lemma LoserUncopied(w: World, q: nat)
    requires WorldOk(w) && q in w.procs && w.procs[q].Publish? && w.procs[q].bp.BClaim?
    ensures CopiedPaths(w.procs[q].trace) == []
  {
    hide RowOk, TokensOk, StageOk, DiffOk, WellPaced, EndsWith;
    assert PointOk(w, q, w.procs[q]);
  }

  /** A step of a publication that claims nothing and has no effect outside. */
  lemma PublishGoes(w: World, q: nat, ch: Choice)
    requires q in w.procs && w.procs[q].Publish? && !w.procs[q].bp.BClaim? && StepPublish(w, w.procs[q], ch).effect.NoEffect?
    ensures Advance(w, Go(q, ch)) ==
      w.(row := StepPublish(w, w.procs[q], ch).row, procs := w.procs[q := StepPublish(w, w.procs[q], ch).proc])
  {
    hide StepPublish;
  }

  lemma LoserFailsToClaim(w: World, q: nat, ch: Choice)
    requires w.row.status == Publishing && q in w.procs && w.procs[q].Publish? && w.procs[q].bp.BClaim?
    requires ch.token !in w.used && ch.token != ""
    ensures Advance(w, Go(q, ch)) == w.(procs := w.procs[q := w.procs[q].(bp := BFail)], used := w.used + {ch.token})
  {
    hide Claiming, CopiedPaths, ExactDiff;
    NoClaimWhileOpen(w, Completed, ch);
  }

  /** The second way: a second
      publish call that read the job as completed, lost the claim, and sees the cancellation flag,
      cancels the job under the first call's lease, although files were copied. */
  lemma LoserCancelsTornPublication(w: World, p: nat, q: nat, ch: Choice)
    requires WorldOk(w) && Torn(w, p) && p != q && q in w.procs && w.procs[q].Publish?
    requires w.procs[q].bp.BClaim? && w.row.cancel && ch.now < w.row.expires.GetOr(0) && ch.token !in w.used && ch.token != ""
    requires !ch.raises
    ensures var a := Advance(w, Go(q, ch)); var b := Advance(a, Go(q, ch)); var c := Advance(b, Go(q, ch));
      c.row.status == Cancelled && p in c.procs && c.procs[p] == w.procs[p]
  {
    hide CopiedPaths, WorldOk, LeaseWhole, ExactDiff, Claiming, Owned, Advance;
    WholeRow(w);
    LoserUncopied(w, q);
    LoserFailsToClaim(w, q, ch);
    var a := Advance(w, Go(q, ch));
    PublishGoes(a, q, ch);
    var b := Advance(a, Go(q, ch));
    PublishGoes(b, q, ch);
    LoserTransition(b, ch.now, Texts(ch.notes));
  }
}
