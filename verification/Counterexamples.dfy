/** Runs from a new job in which a promise of the design fails: a partly published job is cancelled, a commit
    holds a file that another job wrote, and a publication and a validation that succeeded are stored as failed. */
module Counterexamples {
  import opened Text
  import opened Runner
  import opened Jobs
  import opened Runs
  import opened Leases
  import opened Trees
  import opened Workspaces
  import opened ControlPlane
  import opened ControlPlaneRows
  import opened ControlPlaneProofs
  import opened Guarantees
  import opened KeyedCalls

  const FIRST: Contents := map["f" := "a"]
  const SECOND: Contents := map["f" := "b"]
  const CHANGES: seq<Change> := [Workspaces.Change.Change("f", Modified, None, None)]
  const ACTIONS: seq<string> := ["test"]
  const EXECUTION: Execution := Executed([Check("test", "test", "passed", true)], [], [], false)

  function With(token: string): Choice {
    Choice(0, "w", token, 300, false, false, false, FIRST, CHANGES, EXECUTION, NO_CHANGES, None, None, "", "", "")
  }

  /** A job with one action that `prepare_task` has just created. */
  function NewJob(sha: Hash): World {
    World("j", ACTIONS, NewRow(Draft("p", "r", "i", "R2", None, None, None, Queued)), map[], map[0 := Prepare(PClaim, None)], {},
          sha, Everything(), None, map[], map[], FIRST, [], None, None, 0)
  }

  ghost function Reach(sha: Hash, moves: seq<Move>): World { WorldAfter(NewJob(sha), moves) }

  lemma ReachNext(sha: Hash, moves: seq<Move>, m: Move)
    ensures Reach(sha, moves + [m]) == Advance(Reach(sha, moves), m)
  {
    hide Advance;
    assert (moves + [m])[..|moves|] == moves;
  }

  // ---------------------------------------------------------------- transactions that succeed

  predicate Held(row: Row, status: Status, token: string) {
    row.status == status && Guarded(status) && row.worker == Some("w") && row.token == Some(token) && token != ""
    && row.expires.GetOr(0) > 0 && !row.cancel
  }

  predicate Free(row: Row, status: Status) { row.status == status && !Guarded(status) && !row.cancel }

  lemma WorkerIsValid()
    ensures IsWorkerId("w") && IsLease(300) && Expiry(0, 300) > 0
  {
  }

  lemma ClaimWorks(w: World, from: Status, token: string)
    requires Free(w.row, from) && SafeOrigin(from) && token != ""
    ensures Claiming(w, from, With(token)).1 && Held(Claiming(w, from, With(token)).0, Status.Claimed, token)
  {
    WorkerIsValid();
    hide IsWorkerId, IsLease, Expiry;
  }

  lemma TransitionWorks(row: Row, id: string, target: Status, token: string, c: Changes)
    requires Held(row, row.status, token) && CanMove(row.status, target) && target != Status.Claimed
    ensures var (after, ok) := Transact(row, TransitionCall(id, target, Some("w"), Some(token), c, 0));
      ok && if Guarded(target) then Held(after, target, token) else Free(after, target)
  {
    hide IsLease, IsWorkerId;
  }

  lemma LeasedWorks(w: World, target: Status, token: string)
    requires Held(w.row, w.row.status, token) && CanMove(w.row.status, target) && target != Status.Claimed && Guarded(target)
    ensures var (after, ok) := Leased(w, Some(Lease("w", token)), target, 0); ok && Held(after, target, token)
  {
    hide Transact, CanMove;
    TransitionWorks(w.row, w.id, target, token, NO_CHANGES);
  }

  lemma OwnedWorks(w: World, seen: Row, target: Status, token: string, c: Changes)
    requires Held(w.row, w.row.status, token) && seen.worker == w.row.worker && seen.token == w.row.token
    requires CanMove(w.row.status, target) && !Guarded(target)
    ensures var (after, ok) := Owned(w, seen, target, c, 0); ok && Free(after, target)
  {
    hide Transact, CanMove;
    TransitionWorks(w.row, w.id, target, token, c);
  }

  lemma BeatWorks(w: World, token: string)
    requires Held(w.row, w.row.status, token)
    ensures var (after, ok) := Beating(w, Some(Lease("w", token)), With(token)); ok && Held(after, w.row.status, token)
  {
    WorkerIsValid();
    hide IsWorkerId, IsLease, Expiry;
  }

  lemma HeldMeans(row: Row, status: Status, token: string)
    requires Held(row, status, token)
    ensures row.status == status && row.token == Some(token) && !row.cancel && row.expires.GetOr(0) > 0
  {
  }

  lemma FreeMeans(row: Row, status: Status)
    requires Free(row, status)
    ensures row.status == status && !row.cancel
  {
  }

  lemma HappyMoves()
    ensures CanMove(Status.Claimed, Status.Preparing) && CanMove(Status.Claimed, Validating) && CanMove(Status.Claimed, Publishing)
    ensures CanMove(Status.Preparing, Prepared) && CanMove(Validating, Completed) && CanMove(Publishing, Completed)
  {
  }

  lemma UpdateHolds(w: World, token: string)
    requires Held(w.row, Status.Preparing, token)
    ensures var notes := w.row.notes.(workspace := None, revision := None);
      Held(Transact(w.row, UpdateCall(w.id, Fields(None, None, None, Some(notes)))).0, Status.Preparing, token)
  {
  }

  // ---------------------------------------------------------------- preparing

  const A := Lease("w", "a")
  const B := Lease("w", "b")

  predicate HasFiles(w: World, work: Contents) { w.baseline == FIRST && w.workspace == work }

  const VALIDATE_KEY: OpKey := OpKey("j", "validate", "k")
  const PUBLISH_KEY: OpKey := OpKey("j", "publish", "k")

  /** What the steps before the diff leave as it was: everything is visible, and nobody wrote to the source. */
  ghost predicate Calm(w: World) {
    w.id == "j" && w.hidden == Everything() && w.recorded.None? && w.source == FIRST && w.foreign == [] && w.actions == ACTIONS
  }

  lemma CalmId(w: World)
    requires Calm(w)
    ensures w.id == "j" && w.actions == ACTIONS
  {
  }

  lemma CalmStays(w: World, p: nat, e: Effect, v: World)
    requires Calm(w) && !e.Copies? && (e.Builds? ==> e.revision.None?)
    requires v == Affected(w, p, e).(row := v.row, procs := v.procs, used := v.used)
    ensures Calm(v)
  {
    hide Begin, Finish;
  }

  lemma KeysDistinct()
    ensures VALIDATE_KEY != PUBLISH_KEY && IsKey("k") && IsOperation("validate") && IsOperation("publish")
  {
    assert "validate"[0] != "publish"[0];
  }

  /** The preparation goes well so far. */
  ghost predicate Preparing(w: World) {
    0 in w.procs && 1 !in w.procs && 2 !in w.procs && w.procs[0].Prepare? && Calm(w) && w.ops == map[] &&
    var proc := w.procs[0];
    if proc.pp.PClaim? then Free(w.row, Queued) && w.used == {} else PreparesAt(w, proc)
  }

  predicate PreparesAt(w: World, proc: Proc)
    requires proc.Prepare?
  {
    proc.lease == Some(A) && w.used == {"a"} &&
    match proc.pp
    case PPhase => Held(w.row, Status.Claimed, "a")
    case PLook => Held(w.row, Status.Preparing, "a")
    case PBuild => Held(w.row, Status.Preparing, "a")
    case PUpdate => Held(w.row, Status.Preparing, "a") && HasFiles(w, FIRST)
    case PLookAgain(seen) => Held(w.row, Status.Preparing, "a") && HasFiles(w, FIRST) && seen == w.row
    case PFinish(seen) => Held(w.row, Status.Preparing, "a") && HasFiles(w, FIRST) && seen == w.row
    case PRecord => Free(w.row, Prepared) && HasFiles(w, FIRST)
    case _ => false
  }

  function StepsLeft(at: PreparePoint): nat {
    match at
    case PClaim => 7
    case PPhase => 6
    case PLook => 5
    case PBuild => 4
    case PUpdate => 3
    case PLookAgain(_) => 2
    case PFinish(_) => 1
    case _ => 0
  }

  lemma PrepareGoes(w: World)
    requires Preparing(w) && !w.procs[0].pp.PRecord?
    ensures var v := Advance(w, Go(0, With("a"))); Preparing(v) && StepsLeft(v.procs[0].pp) < StepsLeft(w.procs[0].pp)
  {
    hide Advance, Calm, Held, Free, HasFiles;
    if StepsLeft(w.procs[0].pp) > 4 { PrepareBegins(w); } else { PrepareGoesOn(w); }
  }

  lemma PrepareBegins(w: World)
    requires Preparing(w) && StepsLeft(w.procs[0].pp) > 4
    ensures var v := Advance(w, Go(0, With("a"))); Preparing(v) && StepsLeft(v.procs[0].pp) < StepsLeft(w.procs[0].pp)
  {
    hide Advance, Claiming, Leased, CanMove, Held, Free, Calm, HasFiles;
    GoesTo(w, 0, With("a"));
    CalmStays(w, 0, StepProc(w, w.procs[0], With("a")).effect, Advance(w, Go(0, With("a"))));
    HappyMoves();
    match w.procs[0].pp
    case PClaim => ClaimWorks(w, Queued, "a");
    case PPhase =>
      HeldMeans(w.row, Status.Claimed, "a");
      LeasedWorks(w, Status.Preparing, "a");
    case _ => HeldMeans(w.row, Status.Preparing, "a");
  }

  lemma PrepareGoesOn(w: World)
    requires Preparing(w) && 0 < StepsLeft(w.procs[0].pp) <= 4
    ensures var v := Advance(w, Go(0, With("a"))); Preparing(v) && StepsLeft(v.procs[0].pp) < StepsLeft(w.procs[0].pp)
  {
    hide Advance, Owned, Transact, CanMove, Held, Free, Calm;
    GoesTo(w, 0, With("a"));
    CalmStays(w, 0, StepProc(w, w.procs[0], With("a")).effect, Advance(w, Go(0, With("a"))));
    HappyMoves();
    HeldMeans(w.row, Status.Preparing, "a");
    match w.procs[0].pp
    case PUpdate => UpdateHolds(w, "a");
    case PFinish(seen) => OwnedWorks(w, seen, Prepared, "a", Texts(NO_CHANGES));
    case _ =>
  }

  lemma {:induction false} PrepareRuns(sha: Hash, before: seq<Move>) returns (moves: seq<Move>)
    requires Preparing(Reach(sha, before))
    ensures Preparing(Reach(sha, moves)) && Reach(sha, moves).procs[0].pp.PRecord?
    decreases StepsLeft(Reach(sha, before).procs[0].pp)
  {
    hide Reach, Advance;
    moves := before;
    if !Reach(sha, before).procs[0].pp.PRecord? {
      PrepareGoes(Reach(sha, before));
      ReachNext(sha, before, Go(0, With("a")));
      moves := PrepareRuns(sha, before + [Go(0, With("a"))]);
    }
  }

  // ---------------------------------------------------------------- validating

  const SUMMARY: Summary := Summarize(ACTIONS, EXECUTION)

  ghost predicate ValidatesWell(w: World) {
    1 in w.procs && 2 !in w.procs && w.procs[1].Validate? && w.procs[1].key == Some("k")
    && HasFiles(w, SECOND) && Calm(w) && w.ops.Keys == (if w.procs[1].vp.VBegin? then {} else {VALIDATE_KEY}) &&
    var proc := w.procs[1];
    if proc.vp.VBegin? || proc.vp.VRead? || proc.vp.VClaim? then proc.lease.None? && Free(w.row, Prepared) && w.used == {"a"}
    else ChecksAt(w, proc)
  }

  predicate ChecksAt(w: World, proc: Proc)
    requires proc.Validate?
  {
    proc.lease == Some(B) && w.used == {"a", "b"} &&
    match proc.vp
    case VPhase => Held(w.row, Status.Claimed, "b")
    case VStart => Held(w.row, Validating, "b")
    case VRun => Held(w.row, Validating, "b")
    case VReadAgain(summary) => Held(w.row, Validating, "b") && summary == SUMMARY
    case VEnd(summary, seen) => Held(w.row, Validating, "b") && summary == SUMMARY && seen == w.row
    case VRecord => Free(w.row, Completed) && proc.stored
    case _ => false
  }

  function ChecksLeft(at: ValidatePoint): nat {
    match at
    case VBegin => 8
    case VRead => 7
    case VClaim => 6
    case VPhase => 5
    case VStart => 4
    case VRun => 3
    case VReadAgain(_) => 2
    case VEnd(_, _) => 1
    case _ => 0
  }

  /** The execution comes from a host on which the one action passes. */
  lemma ExecutionGenuine()
    ensures Genuine(ACTIONS, EXECUTION) && SUMMARY.passed && !SUMMARY.cancelled
  {
    var result := AdapterResult(None, "passed", Some(0), "", "");
    var host := Host((i: nat) => false, (i: nat) => true, (i: nat) => Some(result), (i: nat) => true, (i: nat) => false);
    assert "passed" in PASSING;
    assert ACTIONS[0] in RUNTIME_ACTIONS;
    assert Performed(host, 0, "test") == Check("test", "test", "passed", true);
    assert ChecksFor(host, ACTIONS, 1) == EXECUTION.checks;
    assert Stop(host, 1, 0) == (1, false);
    assert OutUpTo(host, ACTIONS, 1) == OutUpTo(host, ACTIONS, 0) + OutAt(host, 0, "test") == [];
    assert ErrUpTo(host, ACTIONS, 1) == ErrUpTo(host, ACTIONS, 0) + ErrAt(host, 0, "test") == [];
    assert Validation(host, ACTIONS) == EXECUTION;
  }

  lemma ValidateGoes(w: World)
    requires ValidatesWell(w) && !w.procs[1].vp.VRecord?
    ensures OneCheckOn(w, Advance(w, Go(1, With("b"))))
  {
    hide Advance, Calm, Held, Free, HasFiles, OneCheckOn;
    if w.procs[1].vp.VBegin? { ValidateAsks(w); }
    else if w.procs[1].vp.VRead? { ValidateReads(w); }
    else if w.procs[1].vp.VClaim? { ValidateClaims(w); }
    else if ChecksLeft(w.procs[1].vp) > 2 { ValidateWorks(w); }
    else { ValidateStores(w); }
  }

  ghost predicate OneCheckOn(w: World, v: World) {
    ValidatesWell(v) && 1 in w.procs && w.procs[1].Validate? && ChecksLeft(v.procs[1].vp) < ChecksLeft(w.procs[1].vp)
  }

  lemma ValidateAsks(w: World)
    requires ValidatesWell(w) && w.procs[1].vp.VBegin?
    ensures OneCheckOn(w, Advance(w, Go(1, With("b"))))
  {
    hide Advance, Free, FIRST, SECOND, Answered, Begin, Calm, ChecksAt;
    GoesTo(w, 1, With("b"));
    CalmStays(w, 1, StepProc(w, w.procs[1], With("b")).effect, Advance(w, Go(1, With("b"))));
    CalmId(w);
    NewKeyGoesAhead(w, VALIDATE_KEY);
  }

  lemma ValidateReads(w: World)
    requires ValidatesWell(w) && w.procs[1].vp.VRead?
    ensures OneCheckOn(w, Advance(w, Go(1, With("b"))))
  {
    hide Advance, Free, FIRST, SECOND, Calm, ChecksAt;
    GoesTo(w, 1, With("b"));
    CalmStays(w, 1, StepProc(w, w.procs[1], With("b")).effect, Advance(w, Go(1, With("b"))));
    FreeMeans(w.row, Prepared);
  }

  lemma ValidateClaims(w: World)
    requires ValidatesWell(w) && w.procs[1].vp.VClaim?
    ensures OneCheckOn(w, Advance(w, Go(1, With("b"))))
  {
    hide Advance, Claiming, Held, Free, FIRST, SECOND, Calm;
    TokensDistinct();
    GoesTo(w, 1, With("b"));
    CalmStays(w, 1, StepProc(w, w.procs[1], With("b")).effect, Advance(w, Go(1, With("b"))));
    ClaimWorks(w, Prepared, "b");
  }

  lemma TokensDistinct()
    ensures "a" != "b" && "a" != "c" && "b" != "c"
  {
    assert "a"[0] == 'a' && "b"[0] == 'b' && "c"[0] == 'c';
  }

  lemma ValidateWorks(w: World)
    requires ValidatesWell(w) && 2 < ChecksLeft(w.procs[1].vp) <= 5
    ensures OneCheckOn(w, Advance(w, Go(1, With("b"))))
  {
    hide Advance, Leased, Beating, Genuine, Summarize, CanMove, Held, EXECUTION, SUMMARY, FIRST, SECOND, Calm;
    GoesTo(w, 1, With("b"));
    CalmStays(w, 1, StepProc(w, w.procs[1], With("b")).effect, Advance(w, Go(1, With("b"))));
    HappyMoves();
    CalmId(w);
    match w.procs[1].vp
    case VPhase =>
      HeldMeans(w.row, Status.Claimed, "b");
      LeasedWorks(w, Validating, "b");
    case VRun =>
      ExecutionGenuine();
      SummaryIs();
    case _ =>
  }

  lemma ValidateStores(w: World)
    requires ValidatesWell(w) && 0 < ChecksLeft(w.procs[1].vp) <= 2
    ensures OneCheckOn(w, Advance(w, Go(1, With("b"))))
  {
    hide Advance, Owned, Genuine, Summarize, CanMove, Held, Free, EXECUTION, SUMMARY, FIRST, SECOND, Calm;
    GoesTo(w, 1, With("b"));
    CalmStays(w, 1, StepProc(w, w.procs[1], With("b")).effect, Advance(w, Go(1, With("b"))));
    HappyMoves();
    ExecutionGenuine();
    HeldMeans(w.row, Validating, "b");
    if w.procs[1].vp.VEnd? {
      OwnedWorks(w, w.procs[1].vp.seen, Completed, "b", NO_CHANGES.(summary := Some(SUMMARY)));
    }
  }

  lemma SummaryIs()
    ensures Summarize(ACTIONS, EXECUTION) == SUMMARY
  {
  }

  lemma {:induction false} ValidateRuns(sha: Hash, before: seq<Move>) returns (moves: seq<Move>)
    requires ValidatesWell(Reach(sha, before))
    ensures ValidatesWell(Reach(sha, moves)) && Reach(sha, moves).procs[1].vp.VRecord?
    decreases ChecksLeft(Reach(sha, before).procs[1].vp)
  {
    hide Reach, Advance;
    moves := before;
    if !Reach(sha, before).procs[1].vp.VRecord? {
      ValidateGoes(Reach(sha, before));
      ReachNext(sha, before, Go(1, With("b")));
      moves := ValidateRuns(sha, before + [Go(1, With("b"))]);
    }
  }

  // ---------------------------------------------------------------- publishing

  const C := Lease("w", "c")

  /** Publication 2 goes well so far; `g` tells whether another job's file is in the source. */
  ghost predicate PublishesWell(w: World, g: bool) {
    2 in w.procs && w.procs[2].Publish? && w.procs[2].key == Some("k") && w.id == "j" && HasFiles(w, SECOND) && ("g" in w.source <==> g) &&
    var proc := w.procs[2];
    if ActsLeft(proc.bp) > 10 then
      proc.bp != BBegin(false) && proc.lease.None? && Free(w.row, Completed) && Calm(w)
      && w.used == {"a", "b"} && (proc.bp.BDiff? || w.ops.Keys == {VALIDATE_KEY})
    else PublishesAt(w, proc, g)
  }

  predicate CommittedWith(proc: Proc, g: bool)
    requires proc.Publish?
  {
    proc.commit.Some? && ("g" in proc.commit.value.source <==> g)
  }

  predicate PublishesAt(w: World, proc: Proc, g: bool)
    requires proc.Publish?
  {
    proc.changes == CHANGES && proc.sourceAtDiff == FIRST && proc.since == 0 &&
    (proc.lease == if proc.bp.BClaim? then None else Some(C)) &&
    match proc.bp
    case BClaim => Free(w.row, Completed) && w.used == {"a", "b"}
    case BPhase => Held(w.row, Status.Claimed, "c")
    case BBeat(i) => Held(w.row, Publishing, "c") && i <= 1
    case BLook(i) => Held(w.row, Publishing, "c") && i <= 1
    case BCopy(i) => Held(w.row, Publishing, "c") && i == 0
    case BCommit => Held(w.row, Publishing, "c")
    case BReadAgain => Held(w.row, Publishing, "c") && CommittedWith(proc, g)
    case BEnd(seen) => Held(w.row, Publishing, "c") && CommittedWith(proc, g) && seen == w.row
    case BRecord => Free(w.row, Completed) && CommittedWith(proc, g)
    case _ => false
  }

  function ActsLeft(at: PublishPoint): nat {
    match at
    case BRead => 13
    case BBegin(_) => 12
    case BDiff => 11
    case BClaim => 10
    case BPhase => 9
    case BBeat(i) => if i == 0 then 8 else 5
    case BLook(i) => if i == 0 then 7 else 4
    case BCopy(_) => 6
    case BCommit => 3
    case BReadAgain => 2
    case BEnd(_) => 1
    case _ => 0
  }

  lemma FileDiffers()
    ensures ExactDiff(FIRST, SECOND, CHANGES)
  {
    assert forall path :: Lookup(FIRST, path) != Lookup(SECOND, path) <==> path == "f";
    assert CHANGES[0].path == "f";
    assert forall path :: Mentions(CHANGES, path) <==> path == "f";
  }

  lemma NoForeignFile()
    ensures "f" in SECOND && "g" !in SECOND && "g" !in FIRST && "f" != "g"
    ensures |CHANGES| == 1 && CHANGES[0].path == "f" && CHANGES[0].kind == Modified
  {
    assert "f"[0] != "g"[0];
  }

  ghost predicate OneActOn(w: World, v: World, g: bool) {
    PublishesWell(v, g) && 2 in w.procs && w.procs[2].Publish? && ActsLeft(v.procs[2].bp) == ActsLeft(w.procs[2].bp) - 1
  }

  lemma PublishBegins(w: World, g: bool)
    requires PublishesWell(w, g) && ActsLeft(w.procs[2].bp) > 10
    ensures OneActOn(w, Advance(w, Go(2, With("c"))), g)
  {
    hide Advance, ExactDiff, CopiedPaths, FIRST, SECOND, Free, SourceStale, Answered, Begin;
    GoesTo(w, 2, With("c"));
    FreeMeans(w.row, Completed);
    FileDiffers();
    match w.procs[2].bp
    case BBegin(_) => NewKeyGoesAhead(w, PUBLISH_KEY);
    case BDiff => CalmIsFresh(w);
    case _ =>
  }

  lemma PublishClaims(w: World, g: bool)
    requires PublishesWell(w, g) && w.procs[2].bp.BClaim?
    ensures OneActOn(w, Advance(w, Go(2, With("c"))), g)
  {
    hide Advance, Claiming, FIRST, SECOND, Held, Free, Calm;
    TokensDistinct();
    GoesTo(w, 2, With("c"));
    ClaimWorks(w, Completed, "c");
  }

  lemma PublishCopies(w: World, g: bool)
    requires PublishesWell(w, g) && 5 < ActsLeft(w.procs[2].bp) < 10
    ensures OneActOn(w, Advance(w, Go(2, With("c"))), g)
  {
    hide Advance, Leased, Beating, CopiedPaths, CanMove, FIRST, SECOND, CHANGES, Held, Free, Calm;
    GoesTo(w, 2, With("c"));
    HappyMoves();
    NoForeignFile();
    match w.procs[2].bp
    case BPhase =>
      HeldMeans(w.row, Status.Claimed, "c");
      LeasedWorks(w, Publishing, "c");
    case BBeat(i) =>
      HeldMeans(w.row, Publishing, "c");
      BeatWorks(w, "c");
    case _ => HeldMeans(w.row, Publishing, "c");
  }

  lemma PublishCloses(w: World, g: bool)
    requires PublishesWell(w, g) && 0 < ActsLeft(w.procs[2].bp) <= 5
    ensures OneActOn(w, Advance(w, Go(2, With("c"))), g)
  {
    hide Advance, Owned, Beating, CopiedPaths, CanMove, FIRST, SECOND, CHANGES, Held, Free, Calm;
    GoesTo(w, 2, With("c"));
    HappyMoves();
    NoForeignFile();
    HeldMeans(w.row, Publishing, "c");
    match w.procs[2].bp
    case BBeat(i) => BeatWorks(w, "c");
    case BEnd(seen) => OwnedWorks(w, seen, Completed, "c", NO_CHANGES);
    case _ =>
  }

  lemma PublishGoes(w: World, g: bool)
    requires PublishesWell(w, g) && 0 < ActsLeft(w.procs[2].bp)
    ensures OneActOn(w, Advance(w, Go(2, With("c"))), g)
  {
    hide Advance, OneActOn, Calm, HasFiles, Free, Held;
    if ActsLeft(w.procs[2].bp) > 10 { PublishBegins(w, g); }
    else if w.procs[2].bp.BClaim? { PublishClaims(w, g); }
    else if ActsLeft(w.procs[2].bp) > 5 { PublishCopies(w, g); }
    else { PublishCloses(w, g); }
  }

  /** The publication goes on until so many acts are left. */
  lemma {:induction false} PublishRuns(sha: Hash, before: seq<Move>, g: bool, goal: nat) returns (moves: seq<Move>)
    requires PublishesWell(Reach(sha, before), g) && goal <= ActsLeft(Reach(sha, before).procs[2].bp)
    ensures PublishesWell(Reach(sha, moves), g) && ActsLeft(Reach(sha, moves).procs[2].bp) == goal
    decreases ActsLeft(Reach(sha, before).procs[2].bp)
  {
    hide Reach, Advance;
    moves := before;
    if ActsLeft(Reach(sha, before).procs[2].bp) > goal {
      PublishGoes(Reach(sha, before), g);
      ReachNext(sha, before, Go(2, With("c")));
      moves := PublishRuns(sha, before + [Go(2, With("c"))], g, goal);
    }
  }

  /** A validation that has completed the job and is about to record that. */
  lemma ValidationRun(sha: Hash) returns (moves: seq<Move>)
    ensures ValidatesWell(Reach(sha, moves)) && Reach(sha, moves).procs[1].vp.VRecord?
  {
    hide Advance, Reach, Preparing;
    NewJobPrepares(sha);
    moves := PrepareRuns(sha, []);
    EditedWorld(Reach(sha, moves));
    ReachNext(sha, moves, EditWorkspace(SECOND));
    ReachNext(sha, moves + [EditWorkspace(SECOND)], StartValidate(1, Some("k")));
    moves := ValidateRuns(sha, moves + [EditWorkspace(SECOND)] + [StartValidate(1, Some("k"))]);
  }

  /** A validated job, and a publication that goes well until so many acts are left. */
  lemma Publication(sha: Hash, goal: nat) returns (moves: seq<Move>)
    requires goal <= 13
    ensures PublishesWell(Reach(sha, moves), false) && ActsLeft(Reach(sha, moves).procs[2].bp) == goal
  {
    hide Advance, Reach, ValidatesWell;
    moves := ValidationRun(sha);
    PublisherStarts(Reach(sha, moves));
    ReachNext(sha, moves, StartPublish(2, Some("k")));
    moves := PublishRuns(sha, moves + [StartPublish(2, Some("k"))], false, goal);
  }

  /** A key that is not stored yet goes ahead. */
  lemma NewKeyGoesAhead(w: World, k: OpKey)
    requires w.id == "j" && k !in w.ops && (k == VALIDATE_KEY || k == PUBLISH_KEY)
    ensures Answered(w, k) == Some(GoneAhead) && Begin(Tables(w), k).0.ops.Keys == w.ops.Keys + {k}
  {
    hide IsKey, IsOperation;
    KeysDistinct();
  }

  lemma CalmIsFresh(w: World)
    requires Calm(w) && HasFiles(w, SECOND)
    ensures !SourceStale(w, None)
  {
    hide Stale, Digests, Visible;
    AllVisible(FIRST);
    SameDigestsNotStale(Digests(w.sha, FIRST), Digests(w.sha, FIRST));
  }

  lemma NewJobPrepares(sha: Hash)
    ensures Initial(NewJob(sha)) && Preparing(Reach(sha, []))
  {
  }

  lemma EditedWorld(w: World)
    requires Preparing(w) && w.procs[0].pp.PRecord?
    ensures ValidatesWell(Advance(Advance(w, EditWorkspace(SECOND)), StartValidate(1, Some("k"))))
  {
  }

  lemma PublisherStarts(w: World)
    requires ValidatesWell(w) && w.procs[1].vp.VRecord?
    ensures var v := Advance(w, StartPublish(2, Some("k"))); PublishesWell(v, false) && ActsLeft(v.procs[2].bp) == 13
  {
    hide Held;
    KeysDistinct();
    NoForeignFile();
  }

  // ---------------------------------------------------------------- the runs

  lemma OnePathCopied(w: World)
    requires WorldOk(w) && 2 in w.procs && w.procs[2].Publish? && w.procs[2].bp == BBeat(1) && w.procs[2].changes == CHANGES
    ensures CopiedPaths(w.procs[2].trace) == ["f"] && Committed !in w.procs[2].trace && Engaged(w.procs[2])
  {
    hide RowOk, TokensOk, StageOk, PairsOk, DiffOk, WellPaced, EndsWith, CopiedPaths, Holding, JustClaimed;
    StandsAt(w, 2);
    assert CHANGES[..1] == CHANGES;
    assert Paths(CHANGES) == ["f"];
  }

  /** A run after which the job is cancelled although a file was copied and nothing was committed: nobody takes
      part but the publication, a recovery after its lease expired, and a cancellation request. */
  lemma CancelledAfterPartialCopy(sha: Hash) returns (moves: seq<Move>)
    ensures Initial(NewJob(sha))
    ensures var w := WorldAfter(NewJob(sha), moves);
      && w.row.status == Cancelled && 2 in w.procs && w.procs[2].Publish? && w.procs[2].bp == BFail
      && CopiedPaths(w.procs[2].trace) == ["f"] && Committed !in w.procs[2].trace
  {
    hide Advance, WorldOk, CopiedPaths, PublishesWell, Initial;
    NewJobPrepares(sha);
    moves := Publication(sha, 5);
    var w := Reach(sha, moves);
    AtSecondBeat(w);
    ReachableOk(NewJob(sha), moves);
    OnePathCopied(w);
    var now := w.row.expires.GetOr(0);
    RecoverThenCancel(w, 2, "expired", now, With("c"));
    ReachNext(sha, moves, RecoverMove("expired", now));
    ReachNext(sha, moves + [RecoverMove("expired", now)], Cancel);
    ReachNext(sha, moves + [RecoverMove("expired", now)] + [Cancel], Go(2, With("c")));
    moves := moves + [RecoverMove("expired", now)] + [Cancel] + [Go(2, With("c"))];
  }

  lemma AtSecondBeat(w: World)
    requires PublishesWell(w, false) && ActsLeft(w.procs[2].bp) == 5
    ensures 2 in w.procs && w.procs[2].Publish? && w.procs[2].bp == BBeat(1) && w.procs[2].changes == CHANGES
    ensures w.row.status == Publishing
  {
  }

  /** A run in which another job publishes a file between the diff and the commit: the publication passes its
      staleness check and commits, and the commit holds a file that was never validated. */
  lemma ForeignFileCommitted(sha: Hash) returns (moves: seq<Move>)
    ensures Initial(NewJob(sha))
    ensures var w := WorldAfter(NewJob(sha), moves);
      && 2 in w.procs && w.procs[2].Publish? && w.procs[2].commit.Some? && !Hidden(w.hidden, "g")
      && w.frozen.Some? && !AgreeAt(w.sha, w.procs[2].commit.value.source, w.frozen.value, "g")
  {
    hide Advance, WorldOk, PublishesWell, Initial, AgreeAt;
    NewJobPrepares(sha);
    moves := Publication(sha, 10);
    ForeignWriteLands(Reach(sha, moves));
    ReachNext(sha, moves, WriteSource("g", Some("x")));
    moves := PublishRuns(sha, moves + [WriteSource("g", Some("x"))], true, 0);
    ReachableOk(NewJob(sha), moves);
    ForeignCommit(Reach(sha, moves));
    SettingStays(sha, moves);
    NothingHidden("g");
  }

  lemma {:induction false} SettingStays(sha: Hash, moves: seq<Move>)
    ensures WorldAfter(NewJob(sha), moves).hidden == Everything() && WorldAfter(NewJob(sha), moves).id == "j"
    decreases |moves|
  {
    hide Advance, NewJob;
    if moves == [] {
      NewJobSetting(sha);
    } else {
      SettingStays(sha, moves[..|moves| - 1]);
      SettingKept(WorldAfter(NewJob(sha), moves[..|moves| - 1]), moves[|moves| - 1]);
    }
  }

  lemma NewJobSetting(sha: Hash)
    ensures NewJob(sha).hidden == Everything() && NewJob(sha).id == "j"
  {
  }

  lemma SettingKept(w: World, m: Move)
    ensures Advance(w, m).hidden == w.hidden && Advance(w, m).id == w.id
  {
    hide StepProc, Transact, ClaimsNext, Affected;
    if m.Go? && m.p in w.procs { AffectedKeeps(w, m.p, StepProc(w, w.procs[m.p], m.ch).effect); }
  }

  lemma ForeignWriteLands(w: World)
    requires PublishesWell(w, false) && ActsLeft(w.procs[2].bp) == 10
    ensures var v := Advance(w, WriteSource("g", Some("x"))); PublishesWell(v, true) && ActsLeft(v.procs[2].bp) == 10
  {
    hide Calm, Held;
  }

  lemma ForeignCommit(w: World)
    requires WorldOk(w) && PublishesWell(w, true) && ActsLeft(w.procs[2].bp) == 0
    ensures 2 in w.procs && w.procs[2].Publish? && w.procs[2].commit.Some?
    ensures w.frozen.Some? && !AgreeAt(w.sha, w.procs[2].commit.value.source, w.frozen.value, "g")
  {
    hide WorldOk, CopiedPaths, CopyAt, FIRST, SECOND, FreshAtDiff, CommitStands;
    CommitFacts(w, 2);
    NoForeignFile();
  }

  lemma AllVisible(c: Contents)
    ensures Visible(c, Everything()) == c
  {
    forall path | path in c ensures !Hidden(Everything(), path) { NothingHidden(path); }
  }

  lemma {:induction false} NothingHidden(path: string)
    ensures !Hidden(Everything(), path)
    decreases |path|
  {
    if path != "" { NothingHidden(Parent(path)); }
  }

  /** A run after which a keyed publication has committed and completed the job and has returned, and its
      operation is stored as failed: recording the result raised. */
  lemma PublicationStoredAsFailed(sha: Hash) returns (moves: seq<Move>)
    ensures Initial(NewJob(sha))
    ensures var w := WorldAfter(NewJob(sha), moves);
      && w.row.status == Completed && 2 in w.procs && w.procs[2].Publish? && w.procs[2].bp.BDone?
      && Committed in w.procs[2].trace && Finished in w.procs[2].trace
      && CallKey(w.id, w.procs[2]) == Some(PUBLISH_KEY) && PUBLISH_KEY in w.ops && w.ops[PUBLISH_KEY].state == OpFailed
  {
    hide Advance, WorldOk, KeysOk, PublishesWell, Initial, IsKey;
    var bad, good := Go(2, With("c").(raises := true)), Go(2, With("c"));
    NewJobPrepares(sha);
    moves := Publication(sha, 0);
    var w := Reach(sha, moves);
    ReachableOk(NewJob(sha), moves);
    ReachableKeys(NewJob(sha), moves);
    PublishedAndKeyed(w);
    FinishedYetFailed(w, 2, bad.ch);
    assert With("c").(raises := true).(raises := false) == With("c");
    ReachNext(sha, moves, bad);
    ReachNext(sha, moves + [bad], good);
    ReachNext(sha, moves + [bad] + [good], good);
    moves := moves + [bad] + [good] + [good];
    SettingStays(sha, moves);
  }

  lemma PublishedAndKeyed(w: World)
    requires WorldOk(w) && KeysOk(w) && PublishesWell(w, false) && ActsLeft(w.procs[2].bp) == 0
    ensures 2 in w.procs && w.procs[2].Publish? && w.procs[2].bp.BRecord? && w.row.status == Completed && w.id == "j"
    ensures CallKey(w.id, w.procs[2]) == Some(PUBLISH_KEY) && IsKey("k")
    ensures PUBLISH_KEY in w.ops && w.ops[PUBLISH_KEY].state == Started
    ensures Committed in w.procs[2].trace && Finished in w.procs[2].trace
  {
    hide RowOk, TokensOk, StageOk, PairsOk, DiffOk, WellPaced, EndsWith, CopiedPaths, Holding, JustClaimed, IsKey, HasFiles, Calm,
      OneAhead, PublishedOk;
    KeysDistinct();
    StandsAt(w, 2);
    assert CallOk(w, w.procs[2]);
  }

  /** A run after which a keyed validation has completed the job and has returned, and its operation is
      stored as failed. */
  lemma ValidationStoredAsFailed(sha: Hash) returns (moves: seq<Move>)
    ensures Initial(NewJob(sha))
    ensures var w := WorldAfter(NewJob(sha), moves);
      && w.row.status == Completed && 1 in w.procs && w.procs[1].Validate? && w.procs[1].vp.VDone? && w.procs[1].stored
      && CallKey(w.id, w.procs[1]) == Some(VALIDATE_KEY) && VALIDATE_KEY in w.ops && w.ops[VALIDATE_KEY].state == OpFailed
  {
    hide Advance, WorldOk, KeysOk, ValidatesWell, Initial, IsKey;
    var bad, good := Go(1, With("b").(raises := true)), Go(1, With("b"));
    NewJobPrepares(sha);
    moves := ValidationRun(sha);
    var w := Reach(sha, moves);
    ReachableKeys(NewJob(sha), moves);
    ValidatedAndKeyed(w);
    VerdictYetFailed(w, 1, bad.ch);
    assert With("b").(raises := true).(raises := false) == With("b");
    ReachNext(sha, moves, bad);
    ReachNext(sha, moves + [bad], good);
    ReachNext(sha, moves + [bad] + [good], good);
    moves := moves + [bad] + [good] + [good];
    SettingStays(sha, moves);
  }

  lemma ValidatedAndKeyed(w: World)
    requires KeysOk(w) && ValidatesWell(w) && w.procs[1].vp.VRecord?
    ensures 1 in w.procs && w.procs[1].Validate? && w.procs[1].vp.VRecord? && w.procs[1].stored
    ensures w.row.status == Completed && w.id == "j"
    ensures CallKey(w.id, w.procs[1]) == Some(VALIDATE_KEY) && IsKey("k")
    ensures VALIDATE_KEY in w.ops && w.ops[VALIDATE_KEY].state == Started
  {
    hide IsKey, HasFiles, OneAhead, PublishedOk;
    KeysDistinct();
    assert CallOk(w, w.procs[1]);
  }
}
