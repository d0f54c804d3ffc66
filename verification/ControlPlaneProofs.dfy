/** The invariant of every reachable world of the control plane. */
module ControlPlaneProofs {
  import opened Text
  import opened Runner
  import opened Jobs
  import opened Runs
  import opened Leases
  import opened Workspaces
  import opened ControlPlane
  import opened ControlPlaneRows

  // ---------------------------------------------------------------- the life of a job

  /** How far a job has come; dead jobs come last. */
  function Phase(row: Row): nat {
    match row.status
    case Queued => 0
    case Preparing => 1
    case Prepared => 2
    case WaitingForApproval => 2
    case Running => 2
    case Validating => 3
    case Completed => 4
    case Publishing => 4
    case Failed => 5
    case Cancelled => 5
    case RecoveryRequired => 5
    case Claimed => if row.origin == Some(Completed) then 4 else if row.origin == Some(Queued) then 0 else 2
  }

  /** A passed summary has exactly one passed check for every mandatory action, and there is at least one. */
  predicate SummaryOk(actions: seq<string>, s: Summary) { s.passed ==> Proves(s) && s.mandatory == actions }

  predicate Validated(actions: seq<string>, row: Row) {
    row.summary.Some? && row.summary.value.passed && SummaryOk(actions, row.summary.value)
  }

  /** A lease that was claimed out of completion is held only before publishing and while publishing. */
  predicate OriginOk(row: Row) {
    Guarded(row.status) && row.origin == Some(Completed) ==> row.status == Status.Claimed || row.status == Publishing
  }

  predicate RowOk(actions: seq<string>, row: Row) {
    LeaseWhole(row) && OriginOk(row) && row.status != Status.Running && (Phase(row) == 4 ==> Validated(actions, row))
  }

  /** The call's claim stands, or it is no longer the one the row carries. */
  predicate JustClaimed(row: Row, lease: Option<Lease>, from: Status) {
    lease.Some? && (row.token == Some(lease.value.token) ==> row.status == Status.Claimed && row.origin == Some(from))
  }

  /** The call holds the job in a phase, or the job is dead. */
  predicate Holding(row: Row, lease: Option<Lease>, phase: Status) {
    lease.Some? && (Dead(row.status) || (row.status == phase && row.token == Some(lease.value.token)))
  }

  /** All that a step of one call, or of nobody, can do to the row as another call sees it. */
  predicate Disturbs(b: Row, a: Row, mine: Option<string>) {
    || (a.status == b.status && a.token == b.token && a.origin == b.origin)
    || Died(b, a)
    || (mine.Some? && FreshlyClaimed(b, a, b.status, mine.value) && !Dead(b.status))
    || (exists target :: MovedOn(b, a, target, mine))
    || GivenBack(b, a)
    || SetAside(b, a)
  }

  lemma ClaimSurvives(b: Row, a: Row, mine: Option<string>, lease: Option<Lease>, from: Status)
    requires Disturbs(b, a, mine) && JustClaimed(b, lease, from) && mine != Some(lease.value.token)
    ensures JustClaimed(a, lease, from)
  {
    hide CanMove;
  }

  lemma HoldSurvives(b: Row, a: Row, mine: Option<string>, lease: Option<Lease>, phase: Status)
    requires Disturbs(b, a, mine) && Holding(b, lease, phase) && mine != Some(lease.value.token)
    requires phase == Status.Preparing || phase == Validating || phase == Publishing
    ensures Holding(a, lease, phase)
  {
  }

  // ---------------------------------------------------------------- where a call stands

  predicate InPreparing(at: PreparePoint) {
    at.PLook? || at.PCancel? || at.PBuild? || at.PUpdate? || at.PLookAgain? || at.PCancelAgain? || at.PFinish?
  }

  predicate InValidating(at: ValidatePoint) { at.VStart? || at.VRun? || at.VReadAgain? || at.VEnd? }

  predicate InPublishing(at: PublishPoint) {
    at.BBeat? || at.BLook? || at.BCopy? || at.BCommit? || at.BReadAgain? || at.BEnd?
  }

  function Paths(changes: seq<Change>): seq<string> { Each((c: Change) => c.path, changes) }

  predicate EndsWith(trace: seq<Act>, acts: seq<Act>) {
    |acts| <= |trace| && trace[|trace| - |acts|..] == acts
  }

  /** Every copy and every commit comes right after a heartbeat on the own lease and a look at the
      cancellation flag that did not show it. */
  predicate WellPaced(trace: seq<Act>) {
    forall i :: 0 <= i < |trace| && (trace[i].Copied? || trace[i].Committed?) ==>
      i >= 2 && trace[i - 1] == Looked && trace[i - 2] == Beat
  }

  /** The publication has entered its phase and has not finished. */
  predicate Engaged(proc: Proc) { proc.Publish? && proc.trace != [] && Finished !in proc.trace }

  /** How far a publication has copied its change list, and which acts lie behind it. */
  predicate TraceOk(proc: Proc)
    requires proc.Publish?
  {
    var n := |proc.changes|;
    var copied := CopiedPaths(proc.trace);
    && WellPaced(proc.trace)
    && (proc.lease.None? ==> proc.trace == []) && (InPublishing(proc.bp) ==> Engaged(proc))
    && (proc.bp.BRead? || proc.bp.BBegin? || proc.bp.BDiff? || proc.bp.BClaim? ==> proc.lease.None?)
    && (proc.bp.BPhase? ==> proc.trace == [])
    && (proc.bp.BBeat? ==> proc.bp.i <= n && copied == Paths(proc.changes[..proc.bp.i]))
    && (proc.bp.BLook? ==> proc.bp.i <= n && copied == Paths(proc.changes[..proc.bp.i]) && EndsWith(proc.trace, [Beat]))
    && (proc.bp.BCopy? ==> proc.bp.i < n && copied == Paths(proc.changes[..proc.bp.i]) && EndsWith(proc.trace, [Beat, Looked]))
    && (proc.bp.BCommit? ==> copied == Paths(proc.changes) && EndsWith(proc.trace, [Beat, Looked]))
    && CommitsOk(proc) && (Committed in proc.trace ==> copied == Paths(proc.changes))
  }

  /** The acts that a publication has taken in the order of the program. */
  predicate CommitsOk(proc: Proc)
    requires proc.Publish?
  {
    && (Committed in proc.trace <==> proc.commit.Some?) && (Finished in proc.trace ==> Committed in proc.trace)
    && (proc.bp.BBeat? || proc.bp.BLook? || proc.bp.BCopy? || proc.bp.BCommit? ==> Committed !in proc.trace)
    && (proc.bp.BReadAgain? || proc.bp.BEnd? ==> Committed in proc.trace)
    && (proc.bp.BRecord? || proc.bp.BComplete? ==> Finished in proc.trace)
  }

  // ---------------------------------------------------------------- foreign writes to the source

  /** The file at a path after some foreign writes. */
  function Latest(writes: seq<Write>, path: string, before: Option<string>): Option<string> {
    if writes == [] then before
    else if writes[|writes| - 1].path == path then writes[|writes| - 1].data
    else Latest(writes[..|writes| - 1], path, before)
  }

  lemma LatestSnoc(writes: seq<Write>, n: nat, x: Write, path: string, before: Option<string>)
    requires n <= |writes|
    ensures Latest((writes + [x])[n..], path, before) ==
      if x.path == path then x.data else Latest(writes[n..], path, before)
  {
    assert (writes + [x])[n..] == writes[n..] + [x];
    assert (writes[n..] + [x])[..|writes[n..]|] == writes[n..];
  }

  /** How many foreign writes the source had seen when the path was last copied. */
  function CopyAt(trace: seq<Act>, path: string): nat {
    if trace == [] then 0
    else if trace[|trace| - 1].Copied? && trace[|trace| - 1].path == path then trace[|trace| - 1].writes
    else CopyAt(trace[..|trace| - 1], path)
  }

  lemma CopyAtSnoc(trace: seq<Act>, act: Act, path: string)
    ensures CopyAt(trace + [act], path) == if act.Copied? && act.path == path then act.writes else CopyAt(trace, path)
  {
    assert (trace + [act])[..|trace|] == trace;
  }

  /** Off the change list the source is what it was at the diff, but for foreign writes since then. */
  ghost predicate OthersStand(base: Contents, work: Contents, proc: Proc, source: Contents, foreign: seq<Write>)
    requires proc.Publish?
  {
    proc.since <= |foreign| &&
    forall path :: Lookup(base, path) == Lookup(work, path) ==>
      Lookup(source, path) == Latest(foreign[proc.since..], path, Lookup(proc.sourceAtDiff, path))
  }

  /** At a copied path the source is what the workspace has, but for foreign writes since the copy. */
  ghost predicate CopiesStand(work: Contents, trace: seq<Act>, source: Contents, foreign: seq<Write>) {
    forall path :: path in CopiedPaths(trace) ==>
      path in work && CopyAt(trace, path) <= |foreign|
      && Lookup(source, path) == Latest(foreign[CopyAt(trace, path)..], path, Lookup(work, path))
  }

  /** When the diff was taken the visible part of the source had the digests of the baseline. */
  predicate FreshAtDiff(w: World, proc: Proc)
    requires proc.Publish?
  {
    Digests(w.sha, w.baseline) == Digests(w.sha, Visible(proc.sourceAtDiff, w.hidden))
  }

  /** The change list is still the difference between the frozen workspace and the baseline; the copied files
      are in the source as long as the publication holds the job, and in the commit for good. */
  ghost predicate DiffOk(w: World, proc: Proc)
    requires proc.Publish?
  {
    && w.frozen.Some? && ExactDiff(w.baseline, w.workspace, proc.changes) && FreshAtDiff(w, proc)
    && OthersStand(w.baseline, w.workspace, proc, w.source, w.foreign)
    && (InPublishing(proc.bp) ==> CopiesStand(w.workspace, proc.trace, w.source, w.foreign))
    && (proc.commit.Some? ==> CommitStands(w.baseline, w.workspace, proc))
  }

  ghost predicate CommitStands(base: Contents, work: Contents, proc: Proc)
    requires proc.Publish? && proc.commit.Some?
  {
    OthersStand(base, work, proc, proc.commit.value.source, proc.commit.value.foreign)
    && CopiesStand(work, proc.trace, proc.commit.value.source, proc.commit.value.foreign)
  }

  /** A publication that has read its job as completed. */
  predicate PastRead(proc: Proc) {
    proc.Publish? && (proc.bp == BBegin(true) || proc.bp.BDiff? || proc.bp.BClaim? || proc.lease.Some?)
  }

  predicate PastVerdict(at: ValidatePoint) {
    at.VRecord? || at.VComplete? || at.VFail? || at.VFailing? || at.VRefuse? || at.VDone?
  }

  /** A validate call notes its verdict with the step that stores it. */
  predicate StoredOk(proc: Proc)
    requires proc.Validate?
  {
    (proc.vp.VRecord? || proc.vp.VComplete? ==> proc.stored) && (proc.stored ==> proc.lease.Some? && PastVerdict(proc.vp))
  }

  ghost predicate PointOk(w: World, p: nat, proc: Proc) {
    match proc
    case Prepare(at, lease) =>
      (at.PPhase? ==> JustClaimed(w.row, lease, Queued)) &&
      (InPreparing(at) ==> Holding(w.row, lease, Status.Preparing) && w.frozen.None?)
    case Validate(at, lease, _, _, _) =>
      StoredOk(proc) && (at.VPhase? ==> JustClaimed(w.row, lease, Prepared)) &&
      (InValidating(at) ==> Holding(w.row, lease, Validating)) &&
      (at.VStart? ==> w.validator == Some(p) && w.validations == 0) &&
      (at.VReadAgain? || at.VEnd? ==> SummaryOk(w.actions, at.summary))
    case Publish(at, lease, _, _, _, _, _, _, _) =>
      (at.BPhase? ==> JustClaimed(w.row, lease, Completed)) &&
      (Engaged(proc) ==> Holding(w.row, lease, Publishing)) &&
      (PastRead(proc) ==> w.frozen.Some?) && (at.BClaim? || lease.Some? ==> DiffOk(w, proc)) && TraceOk(proc)
  }

  // ---------------------------------------------------------------- the invariant

  predicate TokensOk(w: World) {
    && (w.row.token.Some? ==> w.row.token.value in w.used)
    && (forall p :: p in w.procs && w.procs[p].lease.Some? ==> w.procs[p].lease.value.token in w.used)
    && (forall p, q :: p in w.procs && q in w.procs && p != q && w.procs[p].lease.Some? && w.procs[q].lease.Some? ==>
          w.procs[p].lease.value.token != w.procs[q].lease.value.token)
  }

  /** The workspace is frozen from the moment validation is entered, and validation is entered by one call
      and started at most once. */
  predicate StageOk(w: World) {
    && (w.frozen.Some? <==> w.validator.Some?)
    && (w.frozen.Some? ==> w.workspace == w.frozen.value && Phase(w.row) >= 3)
    && (w.frozen.None? ==> Phase(w.row) < 3 || Dead(w.row.status))
    && w.validations <= 1 && (w.validations == 1 ==> w.validator.Some?)
  }

  ghost predicate PointsOk(w: World) { forall p :: p in w.procs ==> PointOk(w, p, w.procs[p]) }

  /** Two calls that cannot stand beside each other: a publication and a validation at work, or two
      publications at work. */
  predicate Rivals(a: Proc, b: Proc) {
    || (PastRead(a) && b.Validate? && InValidating(b.vp))
    || (a.Publish? && b.Publish? && InPublishing(a.bp) && InPublishing(b.bp))
  }

  predicate PairsOk(w: World) {
    forall p, q :: p in w.procs && q in w.procs && p != q ==> !Rivals(w.procs[p], w.procs[q])
  }

  ghost predicate WorldOk(w: World) {
    RowOk(w.actions, w.row) && TokensOk(w) && StageOk(w) && PointsOk(w) && PairsOk(w)
  }

  lemma InitialOk(w: World)
    requires Initial(w)
    ensures WorldOk(w)
  {
  }

  predicate AtWork(w: World, p: nat) { p in w.procs && w.procs[p].Publish? && InPublishing(w.procs[p].bp) }

  /** What a step of call `p` does to everything but the row and the calls. */
  ghost predicate Outside(w: World, v: World, p: nat) {
    && v.actions == w.actions && v.id == w.id && v.foreign == w.foreign && v.sha == w.sha && v.hidden == w.hidden
    && (v.frozen == w.frozen || (w.frozen.None? && w.row.status == Status.Claimed && v.frozen == Some(w.workspace)))
    && (v.validator == w.validator || w.validator.None?)
    && (v.validations == w.validations || w.validator == Some(p))
    && (w.frozen.Some? ==> v.baseline == w.baseline && v.workspace == w.workspace)
    && (v.source == w.source || (w.frozen.Some? && AtWork(w, p) && exists path :: CopiesOne(w, v, path)))
  }

  predicate CopiesOne(w: World, v: World, path: string) {
    path in w.workspace && Lookup(w.baseline, path) != Lookup(w.workspace, path)
    && v.source == w.source[path := w.workspace[path]]
  }

  /** A call keeps its standing while another call, or nobody, takes a step. */
  lemma OthersKeepStanding(w: World, v: World, p: nat, q: nat, mine: Option<string>)
    requires q in w.procs && p != q && PointOk(w, q, w.procs[q]) && PairsOk(w)
    requires Disturbs(w.row, v.row, mine) && Outside(w, v, p)
    requires w.procs[q].lease.Some? ==> mine != Some(w.procs[q].lease.value.token)
    ensures PointOk(v, q, w.procs[q])
  {
    hide Disturbs, TraceOk, SummaryOk, DiffOk, PairsOk, Outside;
    var proc := w.procs[q];
    OutsideFrozen(w, v, p);
    if proc.Prepare? {
      if proc.pp.PPhase? { ClaimSurvives(w.row, v.row, mine, proc.lease, Queued); }
      if InPreparing(proc.pp) { HoldSurvives(w.row, v.row, mine, proc.lease, Status.Preparing); }
    } else if proc.Validate? {
      if proc.vp.VPhase? { ClaimSurvives(w.row, v.row, mine, proc.lease, Prepared); }
      if InValidating(proc.vp) { HoldSurvives(w.row, v.row, mine, proc.lease, Validating); }
    } else {
      TraceHolds(proc);
      if proc.bp.BPhase? { ClaimSurvives(w.row, v.row, mine, proc.lease, Completed); }
      if Engaged(proc) { HoldSurvives(w.row, v.row, mine, proc.lease, Publishing); }
      if proc.bp.BClaim? || proc.lease.Some? { DiffSurvives(w, v, p, q); }
    }
  }

  lemma TraceHolds(proc: Proc)
    requires proc.Publish? && TraceOk(proc)
    ensures proc.lease.None? ==> proc.trace == []
    ensures InPublishing(proc.bp) ==> Engaged(proc) && proc.lease.Some?
    ensures proc.bp.BClaim? || proc.bp.BPhase? ==> proc.trace == []
    ensures proc.bp.BDiff? || proc.bp.BCopy? ==> proc.commit.None?
  {
    hide WellPaced, EndsWith, CopiedPaths;
  }

  lemma OutsideFrozen(w: World, v: World, p: nat)
    requires Outside(w, v, p)
    ensures w.frozen.Some? ==> v.frozen == w.frozen
    ensures w.frozen.None? && v.frozen.Some? ==> w.row.status == Status.Claimed
    ensures v.actions == w.actions
    ensures (v.validator == w.validator || w.validator.None?) && (v.validations == w.validations || w.validator == Some(p))
  {
  }

  lemma DiffSurvives(w: World, v: World, p: nat, q: nat)
    requires q in w.procs && p != q && w.procs[q].Publish? && DiffOk(w, w.procs[q]) && Outside(w, v, p) && PairsOk(w)
    ensures DiffOk(v, w.procs[q])
  {
    hide ExactDiff, CopiedPaths, CopyAt, Latest;
    var proc := w.procs[q];
    if v.source != w.source {
      var path :| CopiesOne(w, v, path);
      assert !Rivals(w.procs[p], w.procs[q]);
      NothingCopied();
    }
  }

  /** When each effect happens. */
  predicate EffectOk(w: World, p: nat, e: Effect) {
    match e
    case Builds(_, _) => w.frozen.None?
    case EntersValidation => w.validator.None? && w.frozen.None? && w.row.status == Status.Claimed
    case StartsValidation => w.validator == Some(p) && w.validations == 0
    case Copies(path) => w.frozen.Some? && AtWork(w, p) && Lookup(w.baseline, path) != Lookup(w.workspace, path)
    case _ => true
  }

  lemma EffectOutside(w: World, p: nat, e: Effect, a: Row)
    requires EffectOk(w, p, e)
    ensures Outside(w, Affected(w, p, e).(row := a), p)
  {
    hide AtWork, Begin, Finish;
    if e.Copies? && e.path in w.workspace { assert CopiesOne(w, Affected(w, p, e).(row := a), e.path); }
  }

  // ---------------------------------------------------------------- the row after a step

  /** The job stays on its side of the line that entering validation crosses. */
  predicate SameSide(b: Row, a: Row) { Phase(b) < 3 ==> Phase(a) < 3 || Dead(a.status) }

  predicate RowMoves(w: World, a: Row, mine: Option<string>) {
    && RowOk(w.actions, a) && Disturbs(w.row, a, mine) && Phase(w.row) <= Phase(a)
    && (a.token.Some? ==> a.token == w.row.token || a.token == mine)
  }

  lemma QuietRow(w: World, a: Row, mine: Option<string>)
    requires RowOk(w.actions, w.row) && LeaseWhole(a)
    requires Untouched(w.row, a) || Died(w.row, a) || GivenBack(w.row, a) || SetAside(w.row, a)
    ensures RowMoves(w, a, mine) && SameSide(w.row, a)
  {
    hide MovedOn, FreshlyClaimed, SummaryOk;
  }

  lemma ClaimedRow(w: World, a: Row, from: Status, token: string)
    requires RowOk(w.actions, w.row) && LeaseWhole(a) && FreshlyClaimed(w.row, a, from, token)
    requires from == Queued || from == Prepared || from == Completed
    ensures RowMoves(w, a, Some(token)) && SameSide(w.row, a)
  {
    hide MovedOn, SummaryOk, LeaseWhole;
  }

  lemma MovedRow(w: World, a: Row, target: Status, token: string)
    requires RowOk(w.actions, w.row) && LeaseWhole(a) && MovedOn(w.row, a, target, Some(token))
    requires target != Status.Running && Phase(w.row) <= Phase(a) && (Phase(a) == 4 ==> Validated(w.actions, a)) && OriginOk(a)
    ensures RowMoves(w, a, Some(token))
  {
    hide Validated, LeaseWhole, Phase;
  }

  // ---------------------------------------------------------------- one step of a prepare call

  function Mine(proc: Proc, ch: Choice): Option<string> {
    if ClaimsNext(proc) then Some(ch.token)
    else if proc.lease.Some? then Some(proc.lease.value.token) else None
  }

  /** The call may take its step: a claim needs a fresh token. */
  predicate Enabled(w: World, p: nat, ch: Choice) {
    p in w.procs && (ClaimsNext(w.procs[p]) ==> ch.token !in w.used && ch.token != "")
  }

  predicate LeaseFrom(before: Proc, after: Proc, ch: Choice) {
    after.lease == before.lease || (ClaimsNext(before) && after.lease == Some(Lease(ch.owner, ch.token)))
  }

  lemma PrepareRow(w: World, p: nat, ch: Choice)
    requires WorldOk(w) && Enabled(w, p, ch) && w.procs[p].Prepare?
    ensures var o := StepPrepare(w, w.procs[p], ch);
      RowMoves(w, o.row, Mine(w.procs[p], ch)) && SameSide(w.row, o.row) && LeaseFrom(w.procs[p], o.proc, ch)
  {
    hide Claiming, Leased, Owned, Transact, LeaseWhole, SummaryOk, RowMoves, SameSide, TokensOk, StageOk, Disturbs, Phase;
    var proc := w.procs[p];
    var mine := Mine(proc, ch);
    assert PointOk(w, p, proc);
    QuietRow(w, w.row, mine);
    match proc.pp
    case PClaim =>
      ClaimFacts(w, Queued, ch);
      if Claiming(w, Queued, ch).1 { ClaimedRow(w, Claiming(w, Queued, ch).0, Queued, ch.token); }
    case PPhase =>
      LeasedFacts(w, proc.lease, Status.Preparing, ch.now);
      var (row, ok) := Leased(w, proc.lease, Status.Preparing, ch.now);
      if ok {
        PhaseStep(w.row, row, Queued, Status.Preparing, proc.lease.value.token);
        MovedRow(w, row, Status.Preparing, proc.lease.value.token);
      }
    case PCancel =>
      LeasedDies(w, proc.lease, ch.now);
      QuietRow(w, Leased(w, proc.lease, Cancelled, ch.now).0, mine);
    case PUpdate =>
      var notes := w.row.notes.(workspace := ch.place, revision := ch.revision);
      UpdateFacts(w, notes);
      QuietRow(w, Transact(w.row, UpdateCall(w.id, Fields(None, None, None, Some(notes)))).0, mine);
    case PCancelAgain(seen) =>
      DyingFacts(w, seen, Cancelled, NO_CHANGES, ch.now);
      QuietRow(w, Owned(w, seen, Cancelled, NO_CHANGES, ch.now).0, mine);
    case PFinish(seen) =>
      OwnedFacts(w, seen, Prepared, Texts(ch.notes), ch.now);
      var (row, ok) := Owned(w, seen, Prepared, Texts(ch.notes), ch.now);
      if ok {
        FinishStep(w.row, row, seen.token, Prepared, proc.lease, Status.Preparing);
        MovedRow(w, row, Prepared, proc.lease.value.token);
      }
    case PFailing(seen) =>
      DyingFacts(w, seen, Failed, Texts(ch.notes), ch.now);
      FailFacts(w, Texts(ch.notes), ch.now);
      QuietRow(w, Owned(w, seen, Failed, Texts(ch.notes), ch.now).0, mine);
      QuietRow(w, Transact(w.row, TransitionCall(w.id, Failed, None, None, Texts(ch.notes), ch.now)).0, mine);
    case _ =>
  }

  /** Entering the first phase after a claim. */
  lemma PhaseStep(b: Row, a: Row, from: Status, target: Status, token: string)
    requires MovedOn(b, a, target, Some(token)) && Guarded(target)
    requires b.token == Some(token) ==> b.status == Status.Claimed && b.origin == Some(from)
    requires (from == Queued && target == Status.Preparing) || (from == Completed && target == Publishing)
    ensures Phase(b) <= Phase(a) && SameSide(b, a) && (Phase(a) == 4 <==> Phase(b) == 4) && OriginOk(a)
  {
  }

  /** Leaving a phase that the call holds. */
  lemma FinishStep(b: Row, a: Row, token: Option<string>, target: Status, lease: Option<Lease>, phase: Status)
    requires MovedOn(b, a, target, token) && Holding(b, lease, phase) && (target == Prepared || target == Completed)
    requires (phase == Status.Preparing && target == Prepared) || ((phase == Validating || phase == Publishing) && target == Completed)
    ensures b.status == phase && token == Some(lease.value.token)
    ensures Phase(b) <= Phase(a) && SameSide(b, a)
    ensures (target == Prepared ==> Phase(a) != 4) && OriginOk(a)
  {
  }

  lemma RowIsWhole(w: World)
    requires RowOk(w.actions, w.row)
    ensures LeaseWhole(w.row)
  {
  }

  lemma PrepareStands(w: World, p: nat, ch: Choice)
    requires WorldOk(w) && Enabled(w, p, ch) && w.procs[p].Prepare?
    ensures var o := StepPrepare(w, w.procs[p], ch);
      PointOk(Affected(w, p, o.effect).(row := o.row), p, o.proc)
  {
    hide Claiming, Leased, Owned, Transact, LeaseWhole, RowOk, SummaryOk, TokensOk, Phase, CanMove;
    var proc := w.procs[p];
    assert PointOk(w, p, proc);
    RowIsWhole(w);
    hide PointsOk, DiffOk, TraceOk, PairsOk;
    match proc.pp
    case PClaim => ClaimFacts(w, Queued, ch);
    case PPhase =>
      LeasedFacts(w, proc.lease, Status.Preparing, ch.now);
      if Leased(w, proc.lease, Status.Preparing, ch.now).1 { EarlyUnfrozen(w); }
    case PUpdate => UpdateFacts(w, w.row.notes.(workspace := ch.place, revision := ch.revision));
    case _ =>
  }

  lemma PrepareEffect(w: World, p: nat, ch: Choice)
    requires WorldOk(w) && Enabled(w, p, ch) && w.procs[p].Prepare?
    ensures var o := StepPrepare(w, w.procs[p], ch);
      EffectOk(w, p, o.effect) && (o.effect.NoEffect? || o.effect.Builds?)
  {
    hide Claiming, Leased, Owned, Transact, RowOk, TokensOk, PairsOk, StageOk, Holding, JustClaimed;
    StandsAt(w, p);
    hide PointsOk;
  }

  /** While the first claim stands, nothing is frozen. */
  lemma EarlyUnfrozen(w: World)
    requires StageOk(w) && w.row.status == Status.Claimed && w.row.origin == Some(Queued)
    ensures w.frozen.None?
  {
  }

  // ---------------------------------------------------------------- one step of a validate call

  lemma ValidateRow(w: World, p: nat, ch: Choice)
    requires WorldOk(w) && Enabled(w, p, ch) && w.procs[p].Validate?
    ensures var o := StepValidate(w, w.procs[p], ch);
      RowMoves(w, o.row, Mine(w.procs[p], ch)) && LeaseFrom(w.procs[p], o.proc, ch)
      && (if o.effect.EntersValidation? then Phase(w.row) == 2 && Phase(o.row) == 3 && w.row.status == Status.Claimed
          else SameSide(w.row, o.row))
  {
    hide Claiming, Leased, Owned, Beating, Transact, LeaseWhole, SummaryOk, RowMoves, SameSide, TokensOk, StageOk, Disturbs,
      Phase, Genuine, Summarize;
    var proc := w.procs[p];
    var mine := Mine(proc, ch);
    assert PointOk(w, p, proc);
    QuietRow(w, w.row, mine);
    match proc.vp
    case VClaim =>
      ClaimFacts(w, Prepared, ch);
      if Claiming(w, Prepared, ch).1 { ClaimedRow(w, Claiming(w, Prepared, ch).0, Prepared, ch.token); }
    case VPhase =>
      LeasedFacts(w, proc.lease, Validating, ch.now);
      var (row, ok) := Leased(w, proc.lease, Validating, ch.now);
      if ok {
        EnterStep(w.row, row, proc.lease.value.token);
        MovedRow(w, row, Validating, proc.lease.value.token);
      }
    case VRun =>
      BeatFacts(w, proc.lease, ch);
      QuietRow(w, Beating(w, proc.lease, ch).0, mine);
    case VEnd(summary, seen) => EndRow(w, proc, ch, summary, seen);
    case VFailing(seen) =>
      var target := if seen.cancel then Cancelled else RecoveryRequired;
      DyingFacts(w, seen, target, Texts(ch.notes), ch.now);
      QuietRow(w, Owned(w, seen, target, Texts(ch.notes), ch.now).0, mine);
    case _ =>
  }

  lemma EnterStep(b: Row, a: Row, token: string)
    requires MovedOn(b, a, Validating, Some(token))
    requires b.token == Some(token) ==> b.status == Status.Claimed && b.origin == Some(Prepared)
    ensures Phase(b) == 2 && Phase(a) == 3 && b.status == Status.Claimed && OriginOk(a)
  {
  }

  /** The step that stores the summary. */
  lemma EndRow(w: World, proc: Proc, ch: Choice, summary: Summary, seen: Row)
    requires RowOk(w.actions, w.row) && Holding(w.row, proc.lease, Validating) && SummaryOk(w.actions, summary)
    ensures var cancelled := summary.cancelled || seen.cancel;
      var changes := ch.notes.(summary := Some(Final(summary, cancelled)));
      var row := Owned(w, seen, FinalStatus(summary, cancelled), changes, ch.now).0;
      RowMoves(w, row, Some(proc.lease.value.token)) && SameSide(w.row, row)
  {
    hide Owned, LeaseWhole, SummaryOk, RowMoves, SameSide, Disturbs, Phase, CanMove, FreshlyClaimed;
    var cancelled := summary.cancelled || seen.cancel;
    var changes := ch.notes.(summary := Some(Final(summary, cancelled)));
    var target := FinalStatus(summary, cancelled);
    var row := Owned(w, seen, target, changes, ch.now).0;
    if target == Completed {
      OwnedFacts(w, seen, Completed, changes, ch.now);
      if row != w.row {
        FinishStep(w.row, row, seen.token, Completed, proc.lease, Validating);
        MovedRow(w, row, Completed, proc.lease.value.token);
      } else {
        QuietRow(w, row, Some(proc.lease.value.token));
      }
    } else {
      DyingFacts(w, seen, target, changes, ch.now);
      QuietRow(w, row, Some(proc.lease.value.token));
    }
  }

  lemma ValidateStands(w: World, p: nat, ch: Choice)
    requires WorldOk(w) && Enabled(w, p, ch) && w.procs[p].Validate?
    ensures var o := StepValidate(w, w.procs[p], ch);
      PointOk(Affected(w, p, o.effect).(row := o.row), p, o.proc)
  {
    hide Claiming, Leased, Owned, Beating, Transact, LeaseWhole, SummaryOk, WorldOk, Genuine, Summarize, Holding, JustClaimed,
      Answered, CanComplete, Begin, Finish, MovedOn, Died, DiffOk, TraceOk, FinalStatus, Final;
    var proc := w.procs[p];
    StandsAt(w, p);
    WholeRow(w);
    match proc.vp
    case VClaim =>
      ClaimFacts(w, Prepared, ch);
      if Claiming(w, Prepared, ch).1 { JustClaimedFrom(w.row, Claiming(w, Prepared, ch).0, Prepared, Lease(ch.owner, ch.token)); }
    case VPhase =>
      EntersFirst(w, p, ch.now);
      PhaseHolds(w, proc.lease, Validating, ch.now);
    case VRun =>
      BeatFacts(w, proc.lease, ch);
      StillHolding(w.row, Beating(w, proc.lease, ch).0, proc.lease, Validating);
      if Genuine(w.actions, ch.execution) { GenuineSummary(w.actions, ch.execution); }
    case VEnd(summary, seen) => HoldingLease(w.row, proc.lease, Validating);
    case _ =>
  }

  lemma HoldingLease(row: Row, lease: Option<Lease>, phase: Status)
    requires Holding(row, lease, phase)
    ensures lease.Some?
  {
  }

  lemma JustClaimedFrom(b: Row, a: Row, from: Status, lease: Lease)
    requires FreshlyClaimed(b, a, from, lease.token)
    ensures JustClaimed(a, Some(lease), from)
  {
  }

  lemma ValidateEffect(w: World, p: nat, ch: Choice)
    requires WorldOk(w) && Enabled(w, p, ch) && w.procs[p].Validate?
    ensures var o := StepValidate(w, w.procs[p], ch);
      EffectOk(w, p, o.effect)
  {
    hide Claiming, Leased, Owned, Beating, Transact, LeaseWhole, TokensOk, Genuine, Summarize, Phase, Answered, CanComplete,
      Begin, Finish, PairsOk, SummaryOk, Holding, JustClaimed, DiffOk, TraceOk;
    var proc := w.procs[p];
    StandsAt(w, p);
    if proc.vp.VPhase? { EntersFirst(w, p, ch.now); }
    hide RowOk, PointsOk, StageOk;
  }

  /** Entering validation succeeds only for the first call that tries. */
  lemma EntersFirst(w: World, p: nat, now: Time)
    requires WorldOk(w) && p in w.procs && w.procs[p].Validate? && w.procs[p].vp.VPhase?
    ensures Leased(w, w.procs[p].lease, Validating, now).1 ==>
      w.validator.None? && w.frozen.None? && w.validations == 0 && w.row.status == Status.Claimed
  {
    hide Leased, LeaseWhole, TokensOk, PairsOk, SummaryOk, DiffOk, TraceOk;
    StandsAt(w, p);
    RowIsWhole(w);
    hide PointsOk, RowOk;
    LeasedFacts(w, w.procs[p].lease, Validating, now);
    if Leased(w, w.procs[p].lease, Validating, now).1 { UnenteredBefore(w); }
  }

  lemma UnenteredBefore(w: World)
    requires StageOk(w) && w.row.status == Status.Claimed && w.row.origin == Some(Prepared)
    ensures w.validator.None? && w.frozen.None? && w.validations == 0
  {
  }

  lemma GenuineSummary(actions: seq<string>, e: Execution)
    requires Genuine(actions, e)
    ensures SummaryOk(actions, Summarize(actions, e))
  {
    var host: Host :| e == Validation(host, actions);
    hide Validation;
    PassedExactly(host, actions);
  }

  // ---------------------------------------------------------------- one step of a publish call

  lemma PublishRow(w: World, p: nat, ch: Choice)
    requires WorldOk(w) && Enabled(w, p, ch) && w.procs[p].Publish?
    ensures var o := StepPublish(w, w.procs[p], ch);
      RowMoves(w, o.row, Mine(w.procs[p], ch)) && SameSide(w.row, o.row) && LeaseFrom(w.procs[p], o.proc, ch)
  {
    hide Claiming, Leased, Owned, Beating, Transact, LeaseWhole, SummaryOk, RowMoves, SameSide, TokensOk, StageOk, Disturbs,
      Phase, ExactDiff, TraceOk, DiffOk, CopiedPaths, SourceStale, Answered, CanComplete, Closing, PairsOk, CanMove, MovedOn,
      FreshlyClaimed;
    var proc := w.procs[p];
    var mine := Mine(proc, ch);
    assert PointOk(w, p, proc);
    TraceHolds(proc);
    QuietRow(w, w.row, mine);
    match proc.bp
    case BClaim =>
      ClaimFacts(w, Completed, ch);
      if Claiming(w, Completed, ch).1 { ClaimedRow(w, Claiming(w, Completed, ch).0, Completed, ch.token); }
    case BPhase =>
      LeasedFacts(w, proc.lease, Publishing, ch.now);
      var (row, ok) := Leased(w, proc.lease, Publishing, ch.now);
      if ok {
        PhaseStep(w.row, row, Completed, Publishing, proc.lease.value.token);
        MovedRow(w, row, Publishing, proc.lease.value.token);
      }
    case BBeat(i) =>
      BeatFacts(w, proc.lease, ch);
      QuietRow(w, Beating(w, proc.lease, ch).0, mine);
    case BEnd(seen) => PublishedRow(w, proc, ch, seen);
    case BFailing(seen) =>
      var target := if seen.cancel && CopiedPaths(proc.trace) == [] then Cancelled else RecoveryRequired;
      DyingFacts(w, seen, target, Texts(ch.notes), ch.now);
      QuietRow(w, Owned(w, seen, target, Texts(ch.notes), ch.now).0, mine);
    case _ =>
  }

  /** The step that marks the job completed again. */
  lemma PublishedRow(w: World, proc: Proc, ch: Choice, seen: Row)
    requires RowOk(w.actions, w.row) && Holding(w.row, proc.lease, Publishing)
    ensures var row := Owned(w, seen, Completed, NO_CHANGES, ch.now).0;
      RowMoves(w, row, Some(proc.lease.value.token)) && SameSide(w.row, row)
  {
    hide Owned, LeaseWhole, SummaryOk, RowMoves, SameSide, Disturbs, CanMove, FreshlyClaimed;
    var row := Owned(w, seen, Completed, NO_CHANGES, ch.now).0;
    OwnedFacts(w, seen, Completed, NO_CHANGES, ch.now);
    if row != w.row {
      FinishStep(w.row, row, seen.token, Completed, proc.lease, Publishing);
      MovedRow(w, row, Completed, proc.lease.value.token);
    } else {
      QuietRow(w, row, Some(proc.lease.value.token));
    }
  }

  lemma CopiedSnoc(trace: seq<Act>, act: Act)
    ensures CopiedPaths(trace + [act]) == CopiedPaths(trace) + if act.Copied? then [act.path] else []
  {
    assert (trace + [act])[..|trace|] == trace;
  }

  lemma PacedSnoc(trace: seq<Act>, act: Act)
    requires WellPaced(trace)
    requires act.Copied? || act.Committed? ==> EndsWith(trace, [Beat, Looked])
    ensures WellPaced(trace + [act])
  {
    var n := |trace|;
    if EndsWith(trace, [Beat, Looked]) {
      assert trace[n - 2..][0] == Beat && trace[n - 2..][1] == Looked;
    }
    forall i | 0 <= i < n ensures (trace + [act])[i] == trace[i] {}
  }

  lemma EndsSnoc(trace: seq<Act>, act: Act)
    ensures EndsWith(trace + [act], [act])
    ensures EndsWith(trace, [Beat]) && act == Looked ==> EndsWith(trace + [act], [Beat, Looked])
  {
    if EndsWith(trace, [Beat]) {
      assert trace[|trace| - 1] == trace[|trace| - 1..][0];
      assert (trace + [act])[|trace| - 1..] == [trace[|trace| - 1], act];
    }
  }

  lemma EndsNonempty(trace: seq<Act>, acts: seq<Act>)
    requires EndsWith(trace, acts) && acts != []
    ensures trace != []
  {
  }

  /** An act that neither copies, commits nor finishes. */
  lemma QuietAct(trace: seq<Act>, act: Act)
    requires act == Entered || act == Beat || act == Looked
    ensures CopiedPaths(trace + [act]) == CopiedPaths(trace) && (WellPaced(trace) ==> WellPaced(trace + [act]))
    ensures (Committed in trace + [act] <==> Committed in trace) && (Finished in trace + [act] <==> Finished in trace)
  {
    hide WellPaced;
    CopiedSnoc(trace, act);
    assert CopiedPaths(trace) + [] == CopiedPaths(trace);
    if WellPaced(trace) { PacedSnoc(trace, act); }
  }

  lemma TraceEnter(proc: Proc)
    requires proc.Publish? && TraceOk(proc) && proc.bp.BPhase? && proc.lease.Some?
    ensures TraceOk(proc.(bp := BBeat(0), trace := proc.trace + [Entered]))
  {
    hide CopiedPaths, WellPaced, EndsWith, Paths;
    NothingCopied();
    QuietAct([], Entered);
    assert proc.trace + [Entered] == [] + [Entered];
    assert proc.changes[..0] == [] && Paths([]) == [] by { NoPaths(); }
  }

  lemma NoPaths()
    ensures Paths([]) == []
  {
  }

  lemma Beaten(proc: Proc)
    requires proc.Publish? && TraceOk(proc) && proc.bp.BBeat?
    ensures TraceOk(proc.(bp := BLook(proc.bp.i), trace := proc.trace + [Beat]))
  {
    hide CopiedPaths, WellPaced, EndsWith, Paths;
    QuietAct(proc.trace, Beat);
    EndsSnoc(proc.trace, Beat);
  }

  /** A call that leaves its program for its failure handler. */
  lemma TraceFails(proc: Proc)
    requires proc.Publish? && TraceOk(proc)
    ensures TraceOk(proc.(bp := BFail))
  {
    hide CopiedPaths, WellPaced, EndsWith, Paths;
  }

  lemma TraceLook(w: World, proc: Proc, ch: Choice)
    requires proc.Publish? && TraceOk(proc) && proc.bp.BLook?
    ensures TraceOk(StepPublish(w, proc, ch).proc)
  {
    hide CopiedPaths, WellPaced, EndsWith, Paths;
    EndsNonempty(proc.trace, [Beat]);
    QuietAct(proc.trace, Looked);
    EndsSnoc(proc.trace, Looked);
    assert proc.changes[..|proc.changes|] == proc.changes;
  }

  lemma TraceCopy(w: World, proc: Proc, ch: Choice)
    requires proc.Publish? && TraceOk(proc) && proc.bp.BCopy?
    ensures TraceOk(StepPublish(w, proc, ch).proc)
  {
    hide CopiedPaths, WellPaced, EndsWith, Paths;
    var i := proc.bp.i;
    var act := Act.Copied(proc.changes[i].path, |w.foreign|);
    EndsNonempty(proc.trace, [Beat, Looked]);
    CopiedSnoc(proc.trace, act);
    PacedSnoc(proc.trace, act);
    PathsNext(proc.changes, i);
  }

  lemma PathsNext(changes: seq<Change>, i: nat)
    requires i < |changes|
    ensures Paths(changes[..i + 1]) == Paths(changes[..i]) + [changes[i].path]
  {
  }

  lemma TraceCommit(w: World, proc: Proc, ch: Choice)
    requires proc.Publish? && TraceOk(proc) && proc.bp.BCommit?
    ensures TraceOk(StepPublish(w, proc, ch).proc)
  {
    hide CopiedPaths, WellPaced, EndsWith, Paths;
    EndsNonempty(proc.trace, [Beat, Looked]);
    CopiedSnoc(proc.trace, Committed);
    PacedSnoc(proc.trace, Committed);
  }

  lemma TraceFinish(proc: Proc)
    requires proc.Publish? && TraceOk(proc) && proc.bp.BEnd?
    ensures TraceOk(proc.(bp := BRecord, trace := proc.trace + [Finished]))
  {
    hide CopiedPaths, WellPaced, EndsWith, Paths;
    CopiedSnoc(proc.trace, Finished);
    PacedSnoc(proc.trace, Finished);
  }

  lemma TraceStep(w: World, proc: Proc, ch: Choice)
    requires proc.Publish? && TraceOk(proc)
    ensures TraceOk(StepPublish(w, proc, ch).proc)
  {
    hide Claiming, Leased, Owned, Transact, ExactDiff, CopiedPaths, WellPaced, EndsWith, Beating, TraceOk, Paths, CommitsOk;
    TraceFails(proc);
    match proc.bp
    case BPhase =>
      LeasedNeedsLease(w, proc.lease, Publishing, ch.now);
      if proc.lease.Some? { TraceEnter(proc); }
    case BBeat(i) => Beaten(proc);
    case BLook(i) => TraceLook(w, proc, ch);
    case BCopy(i) => TraceCopy(w, proc, ch);
    case BCommit => TraceCommit(w, proc, ch);
    case BEnd(seen) => TraceFinish(proc);
    case _ => TraceElsewhere(w, proc, ch);
  }

  /** At its other points a publication takes no act. */
  lemma TraceElsewhere(w: World, proc: Proc, ch: Choice)
    requires proc.Publish? && TraceOk(proc)
    requires proc.bp.BRead? || proc.bp.BBegin? || proc.bp.BDiff? || proc.bp.BClaim? || proc.bp.BReadAgain?
      || proc.bp.BRecord? || proc.bp.BComplete? || proc.bp.BFail? || proc.bp.BFailing? || proc.bp.BRefuse? || proc.bp.BDone?
    ensures TraceOk(StepPublish(w, proc, ch).proc)
  {
    hide Claiming, Leased, Owned, Transact, ExactDiff, WellPaced, EndsWith, Beating, SourceStale, Answered, CanComplete, Closing, Paths;
    NothingCopied();
  }

  lemma LeasedNeedsLease(w: World, lease: Option<Lease>, target: Status, now: Time)
    ensures Leased(w, lease, target, now).1 ==> lease.Some?
  {
    hide Transact;
  }

  lemma NothingCopied()
    ensures CopiedPaths([]) == [] && WellPaced([])
  {
  }

  lemma PublishStands(w: World, p: nat, ch: Choice)
    requires WorldOk(w) && Enabled(w, p, ch) && w.procs[p].Publish?
    ensures var o := StepPublish(w, w.procs[p], ch);
      PointOk(Affected(w, p, o.effect).(row := o.row), p, o.proc)
  {
    hide Claiming, Leased, Owned, Beating, Transact, LeaseWhole, SummaryOk, TokensOk, Phase, CanMove, ExactDiff, TraceOk,
      DiffOk, CopiedPaths, PairsOk, Engaged, Affected, SourceStale, Answered, CanComplete, Closing, Holding, JustClaimed;
    var proc := w.procs[p];
    var o := StepPublish(w, proc, ch);
    assert PointOk(w, p, proc);
    TraceStep(w, proc, ch);
    DiffStep(w, p, ch);
    AffectedKeeps(w, p, o.effect);
    PublishHolds(w, p, ch);
    PublishFrozen(w, p, ch);
  }

  lemma PublishFrozen(w: World, p: nat, ch: Choice)
    requires WorldOk(w) && Enabled(w, p, ch) && w.procs[p].Publish?
    ensures var o := StepPublish(w, w.procs[p], ch); PastRead(o.proc) ==> Affected(w, p, o.effect).frozen.Some?
  {
    hide StepPublish, Affected, WorldOk, TraceOk, DiffOk, PastRead, Holding, JustClaimed, Engaged, Leased, InPublishing;
    StandsAt(w, p);
    PublishAdvances(w, w.procs[p], ch);
    FrozenKept(w, p, StepPublish(w, w.procs[p], ch).effect);
    if w.row.status == Completed { CompletedFrozen(w); }
  }

  lemma FrozenKept(w: World, p: nat, e: Effect)
    ensures w.frozen.Some? ==> Affected(w, p, e).frozen.Some?
  {
    hide Begin, Finish;
  }

  /** A publication becomes engaged by entering its phase. */
  lemma EngagesInPhase(w: World, proc: Proc, ch: Choice)
    requires proc.Publish? && TraceOk(proc)
    ensures Engaged(StepPublish(w, proc, ch).proc) ==>
      Engaged(proc) || (proc.bp.BPhase? && Leased(w, proc.lease, Publishing, ch.now).1)
  {
    hide Claiming, Leased, Owned, Beating, Transact, ExactDiff, SourceStale, Answered, CanComplete, Closing, CopiedPaths, TraceOk;
    TraceHolds(proc);
    var next := StepPublish(w, proc, ch).proc;
    assert Finished in proc.trace ==> Finished in next.trace;
  }

  /** What the steps of a publication do to the row. */
  lemma PublishTouches(w: World, proc: Proc, ch: Choice)
    requires proc.Publish?
    ensures var o := StepPublish(w, proc, ch); var at := proc.bp;
      && (o.proc.bp.BPhase? ==> at.BClaim? && Claiming(w, Completed, ch).1)
      && (at.BClaim? ==> o.row == Claiming(w, Completed, ch).0)
      && (o.proc.lease == proc.lease || (at.BClaim? && o.proc.lease == Some(Lease(ch.owner, ch.token))))
      && (o.proc.bp.BPhase? ==> o.proc.lease == Some(Lease(ch.owner, ch.token)))
      && (at.BPhase? ==> o.row == Leased(w, proc.lease, Publishing, ch.now).0)
      && (at.BBeat? ==> o.row == Beating(w, proc.lease, ch).0)
      && (at.BEnd? ==> o.row == w.row || Finished in o.proc.trace)
      && (at.BFailing? ==> exists target :: Dead(target) && o.row == Owned(w, at.seen, target, Texts(ch.notes), ch.now).0)
      && (!at.BClaim? && !at.BPhase? && !at.BBeat? && !at.BEnd? && !at.BFailing? ==> o.row == w.row)
  {
    hide Claiming, Leased, Beating, ExactDiff, SourceStale, Answered, CanComplete, Closing, CopiedPaths;
    hide Decide;
  }

  lemma PublishHolds(w: World, p: nat, ch: Choice)
    requires WorldOk(w) && Enabled(w, p, ch) && w.procs[p].Publish?
    ensures var o := StepPublish(w, w.procs[p], ch);
      (o.proc.bp.BPhase? ==> JustClaimed(o.row, o.proc.lease, Completed)) &&
      (Engaged(o.proc) ==> Holding(o.row, o.proc.lease, Publishing))
  {
    hide StepPublish, Claiming, Leased, Owned, Beating, LeaseWhole, TraceOk, DiffOk, WorldOk, Holding, MovedOn, Died, Untouched,
      InPublishing, PastRead;
    var proc := w.procs[p];
    StandsAt(w, p);
    WholeRow(w);
    TraceHolds(proc);
    EngagesInPhase(w, proc, ch);
    PublishTouches(w, proc, ch);
    hide PointOk, JustClaimed;
    match proc.bp
    case BClaim =>
      ClaimFacts(w, Completed, ch);
      if Claiming(w, Completed, ch).1 { JustClaimedFrom(w.row, Claiming(w, Completed, ch).0, Completed, Lease(ch.owner, ch.token)); }
    case BPhase => PhaseHolds(w, proc.lease, Publishing, ch.now);
    case BBeat(i) =>
      BeatFacts(w, proc.lease, ch);
      StillHolding(w.row, Beating(w, proc.lease, ch).0, proc.lease, Publishing);
    case BFailing(seen) =>
      var target :| Dead(target) && StepPublish(w, proc, ch).row == Owned(w, seen, target, Texts(ch.notes), ch.now).0;
      DyingFacts(w, seen, target, Texts(ch.notes), ch.now);
      StillHolding(w.row, Owned(w, seen, target, Texts(ch.notes), ch.now).0, proc.lease, Publishing);
    case _ =>
  }

  lemma StillHolding(b: Row, a: Row, lease: Option<Lease>, phase: Status)
    requires a == b || Untouched(b, a) || Died(b, a)
    ensures Holding(b, lease, phase) ==> Holding(a, lease, phase)
  {
  }

  lemma PhaseHolds(w: World, lease: Option<Lease>, phase: Status, now: Time)
    requires LeaseWhole(w.row) && (phase == Validating || phase == Publishing)
    ensures var (row, ok) := Leased(w, lease, phase, now); ok ==> Holding(row, lease, phase)
  {
    hide Leased, LeaseWhole;
    LeasedFacts(w, lease, phase, now);
  }

  lemma StandsAt(w: World, p: nat)
    requires WorldOk(w) && p in w.procs
    ensures PointOk(w, p, w.procs[p])
  {
    hide PointOk;
  }

  lemma CompletedFrozen(w: World)
    requires WorldOk(w) && w.row.status == Completed
    ensures w.frozen.Some?
  {
    hide RowOk, TokensOk, PointsOk, PairsOk;
  }

  /** An act that copies and commits nothing keeps the diff. */
  lemma DiffSame(w: World, a: Row, proc: Proc, next: Proc, act: Act)
    requires proc.Publish? && DiffOk(w, proc) && !act.Copied?
    requires next.Publish? && next.changes == proc.changes && next.sourceAtDiff == proc.sourceAtDiff
    requires next.since == proc.since && next.commit == proc.commit
    requires next.trace == proc.trace || next.trace == proc.trace + [act]
    requires InPublishing(next.bp) ==> InPublishing(proc.bp) || proc.trace == []
    ensures DiffOk(w.(row := a), next)
  {
    hide ExactDiff, OthersStand;
    CopiesSame(w.workspace, proc.trace, act, w.source, w.foreign);
    NoCopies(w.workspace, w.source, w.foreign);
    if proc.commit.Some? {
      CopiesSame(w.workspace, proc.trace, act, proc.commit.value.source, proc.commit.value.foreign);
      OthersSame(w.baseline, w.workspace, proc, next, proc.commit.value.source, proc.commit.value.foreign);
    }
    OthersSame(w.baseline, w.workspace, proc, next, w.source, w.foreign);
  }

  lemma OthersSame(base: Contents, work: Contents, proc: Proc, next: Proc, source: Contents, foreign: seq<Write>)
    requires proc.Publish? && next.Publish? && next.since == proc.since && next.sourceAtDiff == proc.sourceAtDiff
    requires OthersStand(base, work, proc, source, foreign)
    ensures OthersStand(base, work, next, source, foreign)
  {
    hide Latest;
  }

  lemma CopiesSame(work: Contents, trace: seq<Act>, act: Act, source: Contents, foreign: seq<Write>)
    requires !act.Copied?
    ensures CopiesStand(work, trace + [act], source, foreign) <==> CopiesStand(work, trace, source, foreign)
  {
    hide CopiedPaths, CopyAt, Latest;
    CopiedSnoc(trace, act);
    assert CopiedPaths(trace) + [] == CopiedPaths(trace);
    forall path ensures CopyAt(trace + [act], path) == CopyAt(trace, path) { CopyAtSnoc(trace, act, path); }
  }

  lemma NoCopies(work: Contents, source: Contents, foreign: seq<Write>)
    ensures CopiesStand(work, [], source, foreign)
  {
  }

  lemma NotStaleIsFresh(w: World, proc: Proc, revision: Option<string>)
    requires proc.Publish? && proc.sourceAtDiff == w.source && !SourceStale(w, revision)
    ensures FreshAtDiff(w, proc)
  {
    hide ChangedPaths, Digests, Visible;
    NoChangedPaths(Digests(w.sha, w.baseline), Digests(w.sha, Visible(w.source, w.hidden)));
  }

  lemma DiffStarts(w: World, a: Row, proc: Proc)
    requires proc.Publish? && w.frozen.Some? && ExactDiff(w.baseline, w.workspace, proc.changes)
    requires FreshAtDiff(w, proc) && proc.sourceAtDiff == w.source && proc.since == |w.foreign| && proc.bp.BClaim? && proc.commit.None?
    ensures DiffOk(w.(row := a), proc)
  {
    hide ExactDiff;
    assert w.foreign[|w.foreign|..] == [];
  }

  lemma DiffStep(w: World, p: nat, ch: Choice)
    requires WorldOk(w) && p in w.procs && w.procs[p].Publish?
    ensures var o := StepPublish(w, w.procs[p], ch);
      (o.proc.bp.BClaim? || o.proc.lease.Some? ==> DiffOk(Affected(w, p, o.effect).(row := o.row), o.proc))
  {
    hide Claiming, Leased, Owned, Beating, Transact, RowOk, TokensOk, StageOk, ExactDiff, DiffOk, CopiedPaths, Holding,
      JustClaimed, WellPaced, EndsWith, PairsOk, Engaged, SourceStale, Answered, CanComplete, Begin, Finish, Paths, CommitsOk;
    var proc := w.procs[p];
    var o := StepPublish(w, proc, ch);
    assert PointOk(w, p, proc);
    TraceHolds(proc);
    hide PointsOk, TraceOk;
    match proc.bp
    case BDiff =>
      if o.proc.bp.BClaim? {
        NotStaleIsFresh(w, o.proc, ch.revision);
        DiffStarts(w, o.row, o.proc);
      }
    case BCopy(i) => CopyStep(w, p, proc, ch, i);
    case BCommit => CommitStep(w, proc, ch);
    case _ => if proc.bp.BClaim? || proc.lease.Some? { DiffElsewhere(w, p, proc, ch); }
  }

  lemma DiffElsewhere(w: World, p: nat, proc: Proc, ch: Choice)
    requires proc.Publish? && DiffOk(w, proc) && TraceOk(proc) && (proc.bp.BClaim? || proc.lease.Some?)
    requires !proc.bp.BCopy? && !proc.bp.BCommit? && !proc.bp.BDiff?
    ensures var o := StepPublish(w, proc, ch); DiffOk(Affected(w, p, o.effect).(row := o.row), o.proc)
  {
    hide StepPublish, DiffOk, TraceOk, CopiedPaths, Affected, InPublishing;
    var o := StepPublish(w, proc, ch);
    TraceHolds(proc);
    PlainStep(w, proc, ch);
    PlainEffect(w, p, o.effect);
    DiffSame(w, o.row, proc, o.proc, PlainAct(proc.bp));
    DiffLocal(w.(row := o.row), Affected(w, p, o.effect).(row := o.row), o.proc);
  }

  function PlainAct(at: PublishPoint): Act {
    if at.BLook? then Looked else if at.BPhase? then Entered else if at.BEnd? then Finished else Beat
  }

  /** A step that takes no diff, copies nothing and commits nothing. */
  lemma PlainStep(w: World, proc: Proc, ch: Choice)
    requires proc.Publish? && !proc.bp.BCopy? && !proc.bp.BCommit? && !proc.bp.BDiff?
    ensures var o := StepPublish(w, proc, ch); var next := o.proc;
      && next.changes == proc.changes && next.sourceAtDiff == proc.sourceAtDiff && next.since == proc.since
      && next.commit == proc.commit && (next.trace == proc.trace || next.trace == proc.trace + [PlainAct(proc.bp)])
      && (InPublishing(next.bp) ==> InPublishing(proc.bp) || proc.bp.BPhase?)
      && (o.effect.NoEffect? || o.effect.Begins? || o.effect.Finishes?)
  {
    hide Claiming, Leased, Owned, Beating, CopiedPaths, SourceStale, Answered, CanComplete;
  }

  lemma PlainEffect(w: World, p: nat, e: Effect)
    requires e.NoEffect? || e.Begins? || e.Finishes?
    ensures Affected(w, p, e) == w.(ops := Affected(w, p, e).ops)
  {
    hide Begin, Finish;
  }

  /** The diff does not depend on the operations of the job. */
  lemma DiffLocal(v: World, u: World, proc: Proc)
    requires proc.Publish? && DiffOk(v, proc) && u == v.(ops := u.ops)
    ensures DiffOk(u, proc)
  {
    hide ExactDiff, OthersStand, CopiesStand;
  }

  /** A copied path is one that the diff names. */
  lemma CopiesNamedPath(w: World, proc: Proc, i: nat)
    requires proc.Publish? && DiffOk(w, proc) && i < |proc.changes|
    ensures Lookup(w.baseline, proc.changes[i].path) != Lookup(w.workspace, proc.changes[i].path)
  {
    hide OthersStand, CopiesStand;
    assert Mentions(proc.changes, proc.changes[i].path);
  }

  lemma CopyStep(w: World, p: nat, proc: Proc, ch: Choice, i: nat)
    requires proc.Publish? && DiffOk(w, proc) && TraceOk(proc) && proc.bp == BCopy(i)
    ensures var o := StepPublish(w, proc, ch);
      DiffOk(Affected(w, p, o.effect).(row := o.row), o.proc)
  {
    hide ExactDiff, CopiedPaths, OthersStand, CopiesStand, WellPaced, EndsWith, Paths;
    var o := StepPublish(w, proc, ch);
    if o.proc.bp.BBeat? {
      var path := proc.changes[i].path;
      CopiesNamedPath(w, proc, i);
      OneCopy(w.workspace, proc.trace, w.source, w.foreign, path);
      CopyElsewhere(w.baseline, w.workspace, proc, w.source, w.foreign, path);
      OthersSame(w.baseline, w.workspace, proc, o.proc, w.source[path := w.workspace[path]], w.foreign);
      TraceHolds(proc);
    } else {
      DiffSame(w, o.row, proc, o.proc, Beat);
    }
  }

  lemma OneCopy(work: Contents, trace: seq<Act>, source: Contents, foreign: seq<Write>, path: string)
    requires CopiesStand(work, trace, source, foreign) && path in work
    ensures CopiesStand(work, trace + [Act.Copied(path, |foreign|)], source[path := work[path]], foreign)
  {
    hide CopiedPaths, CopyAt;
    var act := Act.Copied(path, |foreign|);
    CopiedSnoc(trace, act);
    assert foreign[|foreign|..] == [];
    forall other ensures CopyAt(trace + [act], other) == if other == path then |foreign| else CopyAt(trace, other) {
      CopyAtSnoc(trace, act, other);
    }
  }

  lemma CopyElsewhere(base: Contents, work: Contents, proc: Proc, source: Contents, foreign: seq<Write>, path: string)
    requires proc.Publish? && OthersStand(base, work, proc, source, foreign) && path in work
    requires Lookup(base, path) != Lookup(work, path)
    ensures OthersStand(base, work, proc, source[path := work[path]], foreign)
  {
    hide Latest;
  }

  lemma CommitStep(w: World, proc: Proc, ch: Choice)
    requires proc.Publish? && DiffOk(w, proc) && TraceOk(proc) && proc.bp == BCommit
    ensures var o := StepPublish(w, proc, ch); o.effect.NoEffect? && DiffOk(w.(row := o.row), o.proc)
  {
    hide ExactDiff, CopiedPaths, OthersStand, CopiesStand, WellPaced, EndsWith, Paths;
    var o := StepPublish(w, proc, ch);
    CopiesSame(w.workspace, proc.trace, Committed, w.source, w.foreign);
    OthersSame(w.baseline, w.workspace, proc, o.proc, w.source, w.foreign);
  }

  lemma PublishEffect(w: World, p: nat, ch: Choice)
    requires WorldOk(w) && Enabled(w, p, ch) && w.procs[p].Publish?
    ensures var o := StepPublish(w, w.procs[p], ch);
      EffectOk(w, p, o.effect)
      && (o.effect.NoEffect? || o.effect.Copies? || o.effect.Begins? || o.effect.Finishes?)
  {
    hide Claiming, Leased, Owned, Beating, Transact, RowOk, TokensOk, StageOk, ExactDiff, CopiedPaths, Holding, JustClaimed,
      WellPaced, EndsWith, PairsOk, SourceStale, Answered, CanComplete, DiffOk, Paths, CommitsOk, Engaged, Lookup;
    var proc := w.procs[p];
    StandsAt(w, p);
    hide PointsOk;
    TraceHolds(proc);
    if proc.bp.BCopy? {
      CopyFrozen(w, proc);
      CopiesNamedPath(w, proc, proc.bp.i);
    }
  }

  lemma CopyFrozen(w: World, proc: Proc)
    requires proc.Publish? && DiffOk(w, proc)
    ensures w.frozen.Some?
  {
    hide ExactDiff, OthersStand, CopiesStand;
  }

  // ---------------------------------------------------------------- one step of anybody

  lemma GoRow(w: World, p: nat, ch: Choice)
    requires WorldOk(w) && Enabled(w, p, ch)
    ensures var o := StepProc(w, w.procs[p], ch);
      RowMoves(w, o.row, Mine(w.procs[p], ch)) && LeaseFrom(w.procs[p], o.proc, ch)
      && (if o.effect.EntersValidation? then Phase(w.row) == 2 && Phase(o.row) == 3 && w.row.status == Status.Claimed
          else SameSide(w.row, o.row))
  {
    hide WorldOk, StepPrepare, StepValidate, StepPublish, RowMoves, SameSide, LeaseFrom, Phase, ClaimsNext;
    if w.procs[p].Prepare? {
      PrepareRow(w, p, ch);
      PrepareEffect(w, p, ch);
    } else if w.procs[p].Validate? {
      ValidateRow(w, p, ch);
    } else {
      PublishRow(w, p, ch);
      PublishEffect(w, p, ch);
    }
  }

  lemma GoEffect(w: World, p: nat, ch: Choice)
    requires WorldOk(w) && Enabled(w, p, ch)
    ensures EffectOk(w, p, StepProc(w, w.procs[p], ch).effect)
  {
    hide WorldOk, StepPrepare, StepValidate, StepPublish, ClaimsNext, EffectOk;
    if w.procs[p].Prepare? {
      PrepareEffect(w, p, ch);
    } else if w.procs[p].Validate? {
      ValidateEffect(w, p, ch);
    } else {
      PublishEffect(w, p, ch);
    }
  }

  lemma GoStands(w: World, p: nat, ch: Choice)
    requires WorldOk(w) && Enabled(w, p, ch)
    ensures var o := StepProc(w, w.procs[p], ch);
      var v := Affected(w, p, o.effect).(row := o.row);
      PointOk(v, p, o.proc) && Outside(w, v, p) && EffectOk(w, p, o.effect)
  {
    hide WorldOk, StepPrepare, StepValidate, StepPublish, PointOk, Outside, ClaimsNext, EffectOk, Affected;
    GoEffect(w, p, ch);
    EffectOutside(w, p, StepProc(w, w.procs[p], ch).effect, StepProc(w, w.procs[p], ch).row);
    if w.procs[p].Prepare? {
      PrepareStands(w, p, ch);
    } else if w.procs[p].Validate? {
      ValidateStands(w, p, ch);
    } else {
      PublishStands(w, p, ch);
    }
  }

  /** A call's standing depends on nothing but the fields that `Affected` and the row step change. */
  lemma StandingLocal(v: World, u: World, p: nat, proc: Proc)
    requires PointOk(v, p, proc)
    requires u == v.(procs := u.procs, used := u.used)
    ensures PointOk(u, p, proc)
  {
    hide ExactDiff, TraceOk, SummaryOk, OthersStand, CopiesStand, CommitStands;
  }

  lemma TokensAfterGo(w: World, p: nat, ch: Choice, a: Row, proc: Proc)
    requires TokensOk(w) && Enabled(w, p, ch) && LeaseFrom(w.procs[p], proc, ch)
    requires a.token.Some? ==> a.token == w.row.token || a.token == Mine(w.procs[p], ch)
    ensures var used := if ClaimsNext(w.procs[p]) then w.used + {ch.token} else w.used;
      TokensOk(w.(row := a, procs := w.procs[p := proc], used := used))
  {
    hide ClaimsNext;
  }

  lemma StageAfterGo(w: World, p: nat, o: Outcome)
    requires StageOk(w) && EffectOk(w, p, o.effect) && Phase(w.row) <= Phase(o.row)
    requires if o.effect.EntersValidation? then Phase(w.row) == 2 && Phase(o.row) == 3 else SameSide(w.row, o.row)
    ensures StageOk(Affected(w, p, o.effect).(row := o.row))
  {
    hide Phase, Affected, EffectOk;
    EffectStage(w, p, o.effect);
    DeadPhase(w.row);
    DeadPhase(o.row);
  }

  lemma EffectStage(w: World, p: nat, e: Effect)
    requires EffectOk(w, p, e)
    ensures var v := Affected(w, p, e);
      && (if e.EntersValidation? then v.frozen == Some(w.workspace) && v.validator == Some(p) && v.workspace == w.workspace
          else v.frozen == w.frozen && v.validator == w.validator && (w.frozen.Some? ==> v.workspace == w.workspace))
      && (v.validations == w.validations || (w.validator == Some(p) && w.validations == 0 && v.validations == 1))
      && v.row == w.row
  {
    hide Begin, Finish, AtWork, Lookup;
  }

  lemma DeadPhase(row: Row)
    ensures Dead(row.status) <==> Phase(row) == 5
    ensures Phase(row) <= 5
  {
  }

  /** A step does not bring a call beside a rival. */
  lemma GoRivals(w: World, p: nat, ch: Choice, q: nat)
    requires WorldOk(w) && Enabled(w, p, ch) && q in w.procs && p != q
    ensures var proc := StepProc(w, w.procs[p], ch).proc; !Rivals(proc, w.procs[q]) && !Rivals(w.procs[q], proc)
  {
    hide StepPrepare, StepValidate, StepPublish, RowOk, TokensOk, StageOk, PointsOk, PointOk, PastRead, InPublishing, InValidating;
    assert !Rivals(w.procs[p], w.procs[q]) && !Rivals(w.procs[q], w.procs[p]);
    if w.procs[p].Prepare? {
      PreparesOn(w, p, ch);
    } else if w.procs[p].Validate? {
      ValidateRivals(w, p, ch, q);
    } else {
      PublishRivals(w, p, ch, q);
    }
  }

  lemma PreparesOn(w: World, p: nat, ch: Choice)
    requires p in w.procs && w.procs[p].Prepare?
    ensures !PastRead(StepPrepare(w, w.procs[p], ch).proc)
  {
    hide Claiming, Leased, Owned, Transact;
  }

  /** A call enters validation only when no publication has read the job as completed. */
  lemma ValidateRivals(w: World, p: nat, ch: Choice, q: nat)
    requires WorldOk(w) && Enabled(w, p, ch) && q in w.procs && p != q && w.procs[p].Validate?
    ensures var proc := StepValidate(w, w.procs[p], ch).proc;
      !PastRead(proc) && (InValidating(proc.vp) && PastRead(w.procs[q]) ==> InValidating(w.procs[p].vp))
  {
    hide Claiming, Leased, Owned, Beating, Transact, SummaryOk, TokensOk, PairsOk, Phase, Genuine, Summarize, Answered, CanComplete,
      Closing, StageOk, DiffOk, TraceOk, LeaseWhole, Validated;
    var proc := w.procs[p];
    StandsAt(w, q);
    if proc.vp.VPhase? { EntersFirst(w, p, ch.now); }
    hide RowOk, PointsOk;
  }

  /** A call reads a job as completed only when nobody validates it, and starts to publish only when nobody
      else publishes it. */
  lemma PublishRivals(w: World, p: nat, ch: Choice, q: nat)
    requires WorldOk(w) && Enabled(w, p, ch) && q in w.procs && p != q && w.procs[p].Publish?
    ensures var proc := StepPublish(w, w.procs[p], ch).proc;
      && (PastRead(proc) && w.procs[q].Validate? && InValidating(w.procs[q].vp) ==> PastRead(w.procs[p]))
      && (InPublishing(proc.bp) && w.procs[q].Publish? && InPublishing(w.procs[q].bp) ==> InPublishing(w.procs[p].bp))
  {
    hide Claiming, Leased, Owned, Beating, Transact, ExactDiff, SourceStale, Answered, CanComplete, Closing, CopiedPaths, WorldOk, PastRead,
      InPublishing, InValidating;
    var proc := w.procs[p];
    var next := StepPublish(w, proc, ch).proc;
    PublishAdvances(w, proc, ch);
    if w.row.status == Completed && w.procs[q].Validate? { NobodyValidates(w, q); }
    if w.procs[q].Publish? && Leased(w, proc.lease, Publishing, ch.now).1 { NobodyPublishes(w, proc.lease, ch.now, q); }
  }

  /** A publication reads its job as completed, and is at work, from a single step on. */
  lemma PublishAdvances(w: World, proc: Proc, ch: Choice)
    requires proc.Publish?
    ensures var next := StepPublish(w, proc, ch).proc;
      && (PastRead(next) ==> PastRead(proc) || w.row.status == Completed)
      && (InPublishing(next.bp) ==> InPublishing(proc.bp) || (proc.bp.BPhase? && Leased(w, proc.lease, Publishing, ch.now).1))
  {
    hide StepPublish, PastRead, InPublishing, Leased;
    ReadsOnce(w, proc, ch);
    StartsWorkOnce(w, proc, ch);
  }

  lemma ReadsOnce(w: World, proc: Proc, ch: Choice)
    requires proc.Publish?
    ensures PastRead(StepPublish(w, proc, ch).proc) ==> PastRead(proc) || w.row.status == Completed
  {
    hide Claiming, Leased, Owned, Beating, ExactDiff, SourceStale, Answered, CanComplete, Closing, CopiedPaths;
  }

  lemma StartsWorkOnce(w: World, proc: Proc, ch: Choice)
    requires proc.Publish?
    ensures InPublishing(StepPublish(w, proc, ch).proc.bp) ==>
      InPublishing(proc.bp) || (proc.bp.BPhase? && Leased(w, proc.lease, Publishing, ch.now).1)
  {
    hide Claiming, Leased, Owned, Beating, ExactDiff, SourceStale, Answered, CanComplete, Closing, CopiedPaths;
  }

  lemma NobodyValidates(w: World, q: nat)
    requires WorldOk(w) && q in w.procs && w.procs[q].Validate? && w.row.status == Completed
    ensures !InValidating(w.procs[q].vp)
  {
    hide RowOk, TokensOk, StageOk, PairsOk, SummaryOk, DiffOk, TraceOk;
    StandsAt(w, q);
  }

  lemma NobodyPublishes(w: World, lease: Option<Lease>, now: Time, q: nat)
    requires WorldOk(w) && q in w.procs && w.procs[q].Publish? && Leased(w, lease, Publishing, now).1
    ensures !InPublishing(w.procs[q].bp)
  {
    hide Leased, LeaseWhole, TokensOk, StageOk, PairsOk, SummaryOk, DiffOk, TraceOk, Engaged;
    StandsAt(w, q);
    RowIsWhole(w);
    hide PointsOk, RowOk;
    TraceHolds(w.procs[q]);
    LeasedFacts(w, lease, Publishing, now);
  }

  lemma PairsAfterGo(w: World, p: nat, ch: Choice)
    requires WorldOk(w) && Enabled(w, p, ch)
    ensures var u := Advance(w, Go(p, ch)); u.procs == w.procs[p := StepProc(w, w.procs[p], ch).proc] && PairsOk(u)
  {
    hide StepProc, Affected, Rivals, RowOk, TokensOk, StageOk, PointsOk, ClaimsNext;
    var u := Advance(w, Go(p, ch));
    AffectedKeeps(w, p, StepProc(w, w.procs[p], ch).effect);
    forall q | q in w.procs && q != p ensures !Rivals(u.procs[p], w.procs[q]) && !Rivals(w.procs[q], u.procs[p]) {
      GoRivals(w, p, ch, q);
    }
  }

  /** An enabled step as an equation. */
  lemma GoesTo(w: World, p: nat, ch: Choice)
    requires Enabled(w, p, ch)
    ensures var o := StepProc(w, w.procs[p], ch);
      Advance(w, Go(p, ch)) ==
        Affected(w, p, o.effect).(row := o.row, procs := w.procs[p := o.proc],
                                  used := if ClaimsNext(w.procs[p]) then w.used + {ch.token} else w.used)
  {
    hide StepProc, Affected, ClaimsNext;
  }

  /** A step of call `p`: the whole invariant is kept. */
  lemma GoKeeps(w: World, p: nat, ch: Choice)
    requires WorldOk(w) && Enabled(w, p, ch)
    ensures WorldOk(Advance(w, Go(p, ch)))
  {
    hide StepProc, PointOk, Outside, RowOk, TokensOk, StageOk, SameSide, LeaseFrom, Phase, ClaimsNext, EffectOk, Disturbs, Affected,
      PairsOk;
    PairsAfterGo(w, p, ch);
    var o := StepProc(w, w.procs[p], ch);
    var v := Affected(w, p, o.effect).(row := o.row);
    var u := Advance(w, Go(p, ch));
    GoRow(w, p, ch);
    GoStands(w, p, ch);
    TokensAfterGo(w, p, ch, o.row, o.proc);
    StageAfterGo(w, p, o);
    AffectedKeeps(w, p, o.effect);
    SameStage(v, u);
    SameTokens(w.(row := o.row, procs := u.procs, used := u.used), u);
    forall q | q in u.procs ensures PointOk(u, q, u.procs[q]) {
      if q == p {
        StandingLocal(v, u, p, o.proc);
      } else {
        NotMine(w, p, q, ch);
        OthersKeepStanding(w, v, p, q, Mine(w.procs[p], ch));
        StandingLocal(v, u, q, w.procs[q]);
      }
    }
  }

  lemma AffectedKeeps(w: World, p: nat, e: Effect)
    ensures var v := Affected(w, p, e);
      v.procs == w.procs && v.used == w.used && v.actions == w.actions && v.id == w.id && v.sha == w.sha && v.hidden == w.hidden
  {
  }

  lemma SameStage(v: World, u: World)
    requires StageOk(v) && u == v.(procs := u.procs, used := u.used)
    ensures StageOk(u)
  {
  }

  lemma SameTokens(v: World, u: World)
    requires TokensOk(v) && u.row == v.row && u.procs == v.procs && u.used == v.used
    ensures TokensOk(u)
  {
  }

  lemma NotMine(w: World, p: nat, q: nat, ch: Choice)
    requires TokensOk(w) && Enabled(w, p, ch) && q in w.procs && p != q
    ensures w.procs[q].lease.Some? ==> Mine(w.procs[p], ch) != Some(w.procs[q].lease.value.token)
  {
    hide ClaimsNext;
  }

  /** A change of the row by nobody's call. */
  lemma RowKeeps(w: World, a: Row)
    requires WorldOk(w) && LeaseWhole(a)
    requires Untouched(w.row, a) || Died(w.row, a) || GivenBack(w.row, a) || SetAside(w.row, a)
    ensures WorldOk(w.(row := a))
  {
    hide PointOk, RowOk, SameSide, Disturbs, LeaseWhole, Untouched, Died, GivenBack, SetAside;
    var v := w.(row := a);
    QuietRow(w, a, None);
    StageAfterRow(w, a);
    TokensAfterRow(w, a);
    hide TokensOk, StageOk, Phase;
    forall q | q in v.procs ensures PointOk(v, q, v.procs[q]) {
      OutsideSame(w, a, q + 1);
      OthersKeepStanding(w, v, q + 1, q, None);
    }
  }

  lemma StageAfterRow(w: World, a: Row)
    requires StageOk(w) && Phase(w.row) <= Phase(a) && SameSide(w.row, a)
    ensures StageOk(w.(row := a))
  {
    hide Phase;
    DeadPhase(w.row);
    DeadPhase(a);
  }

  lemma TokensAfterRow(w: World, a: Row)
    requires TokensOk(w) && (a.token.Some? ==> a.token == w.row.token)
    ensures TokensOk(w.(row := a))
  {
  }

  lemma OutsideSame(w: World, a: Row, p: nat)
    ensures Outside(w, w.(row := a), p)
  {
  }

  lemma StartKeeps(w: World, p: nat, proc: Proc)
    requires WorldOk(w) && p !in w.procs
    requires !proc.Prepare? && (proc == NewValidate(proc.key) || proc == NewPublish(proc.key))
    ensures WorldOk(w.(procs := w.procs[p := proc]))
  {
    hide PointOk, RowOk, Phase;
    var u := w.(procs := w.procs[p := proc]);
    NothingCopied();
    assert PointOk(u, p, proc) by { NewStands(u, p, proc); }
    forall q | q in w.procs ensures PointOk(u, q, w.procs[q]) { StandingLocal(w, u, q, w.procs[q]); }
  }

  lemma NewStands(w: World, p: nat, proc: Proc)
    requires !proc.Prepare? && (proc == NewValidate(proc.key) || proc == NewPublish(proc.key))
    ensures PointOk(w, p, proc)
  {
    NothingCopied();
  }

  lemma EditKeeps(w: World, files: Contents)
    requires WorldOk(w) && (w.row.status == Prepared || w.row.status == Status.Running)
    ensures WorldOk(w.(workspace := files))
  {
    hide PointOk, RowOk, TokensOk, Disturbs;
    var v := w.(workspace := files);
    assert w.frozen.None?;
    SameTokens(w, v);
    assert Disturbs(w.row, v.row, None) by { StillRow(w.row); }
    forall q | q in v.procs ensures PointOk(v, q, v.procs[q]) { OthersKeepStanding(w, v, q + 1, q, None); }
  }

  lemma StillRow(row: Row)
    ensures Disturbs(row, row, None)
  {
  }

  /** The invariant is kept by every step of anybody. */
  lemma AdvanceKeeps(w: World, m: Move)
    requires WorldOk(w)
    ensures WorldOk(Advance(w, m))
  {
    hide WorldOk, Transact, LeaseWhole, StepProc, ClaimsNext, Affected, Untouched, Died, GivenBack, SetAside;
    WholeRow(w);
    match m
    case Go(p, ch) => if Enabled(w, p, ch) { GoKeeps(w, p, ch); }
    case StartValidate(p, key) => if p !in w.procs { StartKeeps(w, p, NewValidate(key)); }
    case StartPublish(p, key) => if p !in w.procs { StartKeeps(w, p, NewPublish(key)); }
    case Cancel =>
      CancelFacts(w);
      RowKeeps(w, Transact(w.row, CancelCall(w.id)).0);
    case RecoverMove(reason, now) =>
      RecoverFacts(w, reason, now);
      SameIsUntouched(w.row);
      RowKeeps(w, Transact(w.row, RecoverCall(w.id, reason, now)).0);
    case RequestDelete(now) =>
      DeleteFacts(w, now);
      SameIsUntouched(w.row);
      RowKeeps(w, Transact(w.row, TransitionCall(w.id, WaitingForApproval, None, None, NO_CHANGES, now)).0);
    case EditWorkspace(files) =>
      if w.row.status == Prepared || w.row.status == Status.Running { EditKeeps(w, files); }
    case WriteSource(path, data) => WriteKeeps(w, path, data);
  }

  function Written(source: Contents, path: string, data: Option<string>): Contents {
    if data.Some? then source[path := data.value] else source - {path}
  }

  /** A foreign write changes nothing but the source, and every call keeps its standing. */
  lemma WriteKeeps(w: World, path: string, data: Option<string>)
    requires WorldOk(w)
    ensures WorldOk(w.(source := Written(w.source, path, data), foreign := w.foreign + [Write(path, data)]))
  {
    hide PointOk, RowOk, Written;
    var v := w.(source := Written(w.source, path, data), foreign := w.foreign + [Write(path, data)]);
    SameTokens(w, v);
    forall q | q in v.procs ensures PointOk(v, q, v.procs[q]) { WriteStands(w, path, data, q, w.procs[q]); }
  }

  lemma WriteStands(w: World, path: string, data: Option<string>, q: nat, proc: Proc)
    requires PointOk(w, q, proc)
    ensures PointOk(w.(source := Written(w.source, path, data), foreign := w.foreign + [Write(path, data)]), q, proc)
  {
    hide SummaryOk, TraceOk, ExactDiff, Written, OthersStand, CopiesStand, CommitStands, Holding, JustClaimed, CopiedPaths;
    if proc.Publish? && (proc.bp.BClaim? || proc.lease.Some?) {
      WriteOthers(w.baseline, w.workspace, proc, w.source, w.foreign, path, data);
      if InPublishing(proc.bp) { WriteCopies(w.workspace, proc.trace, w.source, w.foreign, path, data); }
    }
  }

  lemma WrittenAt(source: Contents, path: string, data: Option<string>, other: string)
    ensures Lookup(Written(source, path, data), other) == if other == path then data else Lookup(source, other)
  {
  }

  lemma WriteOthers(base: Contents, work: Contents, proc: Proc, source: Contents, foreign: seq<Write>, path: string, data: Option<string>)
    requires proc.Publish? && OthersStand(base, work, proc, source, foreign)
    ensures OthersStand(base, work, proc, Written(source, path, data), foreign + [Write(path, data)])
  {
    hide Latest, Lookup, Written;
    forall other | Lookup(base, other) == Lookup(work, other)
      ensures Lookup(Written(source, path, data), other) ==
              Latest((foreign + [Write(path, data)])[proc.since..], other, Lookup(proc.sourceAtDiff, other))
    {
      WrittenAt(source, path, data, other);
      LatestSnoc(foreign, proc.since, Write(path, data), other, Lookup(proc.sourceAtDiff, other));
    }
  }

  lemma WriteCopies(work: Contents, trace: seq<Act>, source: Contents, foreign: seq<Write>, path: string, data: Option<string>)
    requires CopiesStand(work, trace, source, foreign)
    ensures CopiesStand(work, trace, Written(source, path, data), foreign + [Write(path, data)])
  {
    hide Latest, Lookup, Written, CopiedPaths, CopyAt;
    forall other | other in CopiedPaths(trace)
      ensures Lookup(Written(source, path, data), other) ==
              Latest((foreign + [Write(path, data)])[CopyAt(trace, other)..], other, Lookup(work, other))
    {
      WrittenAt(source, path, data, other);
      LatestSnoc(foreign, CopyAt(trace, other), Write(path, data), other, Lookup(work, other));
    }
  }

  lemma WholeRow(w: World)
    requires WorldOk(w)
    ensures LeaseWhole(w.row)
  {
  }

  lemma SameIsUntouched(row: Row)
    ensures Untouched(row, row)
  {
  }

  /** Every reachable world satisfies the invariant. */
  lemma {:induction false} ReachableOk(start: World, moves: seq<Move>)
    requires Initial(start)
    ensures WorldOk(WorldAfter(start, moves))
    decreases |moves|
  {
    hide WorldOk, Advance, Initial;
    if moves == [] {
      InitialOk(start);
    } else {
      ReachableOk(start, moves[..|moves| - 1]);
      AdvanceKeeps(WorldAfter(start, moves[..|moves| - 1]), moves[|moves| - 1]);
    }
  }
}
