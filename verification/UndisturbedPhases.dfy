/** The same for prepare and validate calls. */
module UndisturbedPhases {
  import opened Text
  import opened Runner
  import opened Jobs
  import opened Runs
  import opened Workspaces
  import opened ControlPlane
  import opened ControlPlaneProofs
  import opened StoreInvariant
  import opened UndisturbedCalls

  // ---------------------------------------------------------------- validate

  /** Before its claim: the call stands at this point. */
  ghost predicate Asking(w0: World, v: World, p: nat, at: ValidatePoint, begun: bool) {
    && p in w0.procs && p in v.procs && w0.procs[p].Validate? && v.procs[p].Validate?
    && v == w0.(procs := w0.procs[p := v.procs[p]], ops := if begun then OpsWith(w0, w0.procs[p], STARTED) else w0.ops)
    && v.procs[p].vp == at && v.procs[p].lease.None? && v.procs[p].key == w0.procs[p].key && !v.procs[p].stored
  }

  /** With the lease; `entered` and `started` say whether the validation was. */
  ghost predicate Checking(w0: World, v: World, p: nat, at: ValidatePoint, lease: Lease, status: Status, entered: bool, started: bool) {
    && p in w0.procs && p in v.procs && w0.procs[p].Validate? && v.procs[p].Validate?
    && v == w0.(row := v.row, used := v.used, procs := w0.procs[p := v.procs[p]], ops := OpsWith(w0, w0.procs[p], STARTED),
                frozen := if entered then Some(w0.workspace) else w0.frozen, validator := if entered then Some(p) else w0.validator,
                validations := w0.validations + if started then 1 else 0)
    && Held(v.row, lease, status) && SameWork(w0.row, v.row) && v.row.attempt == w0.row.attempt + 1
    && v.procs[p].vp == at && v.procs[p].lease == Some(lease) && v.procs[p].key == w0.procs[p].key && !v.procs[p].stored
  }

  /** What a validation leaves in the row: passed only without a cancellation, and the summary says so. */
  predicate Verdict(b: Row, a: Row, summary: Summary, c: Changes) {
    var cancelled := summary.cancelled || b.cancel;
    && a.status == (if cancelled then Cancelled else if summary.passed then Completed else Failed)
    && a.summary.Some? && a.summary.value.mandatory == summary.mandatory && a.summary.value.checks == summary.checks
    && a.summary.value.counts == summary.counts && a.summary.value.cancelled == cancelled
    && a.summary.value.passed == (summary.passed && !cancelled)
    && Free(a) && SameTask(b, a) && ColumnsAfter(b, a, c.(summary := a.summary)) && a.cancel == b.cancel
  }

  /** The verdict is stored, and the call stands at this point. */
  ghost predicate Judged(w0: World, v: World, p: nat, at: ValidatePoint, summary: Summary, c: Changes, op: Op) {
    && p in w0.procs && p in v.procs && w0.procs[p].Validate? && v.procs[p].Validate?
    && v == w0.(row := v.row, used := v.used, procs := w0.procs[p := v.procs[p]], ops := OpsWith(w0, w0.procs[p], op),
                frozen := Some(w0.workspace), validator := Some(p), validations := w0.validations + 1)
    && Verdict(w0.row, v.row, summary, c) && v.row.attempt == w0.row.attempt + 1
    && v.procs[p].vp == at && v.procs[p].key == w0.procs[p].key
  }

  lemma AskFirst(w0: World, p: nat, ch: Choice)
    requires p in w0.procs && w0.procs[p].Validate? && w0.procs[p] == NewValidate(w0.procs[p].key)
    requires CanBegin(w0, w0.procs[p]) && Easy(w0, ch)
    ensures Asking(w0, Advance(w0, Go(p, ch)), p, VRead, true)
  {
    hide Answered, IsWorkerId, Claiming, Leased, Beating, Owned, CanComplete, Closing, Genuine, Summarize, IsKey, Begin;
    GoesTo(w0, p, ch);
    if CallKey(w0.id, w0.procs[p]).Some? { BeginsAlone(w0, p, w0.procs[p]); }
  }

  lemma AskRead(w0: World, v: World, p: nat, ch: Choice)
    requires Asking(w0, v, p, VRead, true) && Easy(v, ch) && w0.row.status == Prepared
    ensures Asking(w0, Advance(v, Go(p, ch)), p, VClaim, true)
  {
    hide Answered, IsWorkerId, Claiming, Leased, Beating, Owned, CanComplete, Closing, Genuine, Summarize, OpsWith;
    GoesTo(v, p, ch);
  }

  lemma CheckClaim(w0: World, v: World, p: nat, ch: Choice)
    requires Asking(w0, v, p, VClaim, true) && Easy(v, ch) && w0.row.status == Prepared && !w0.row.cancel
    ensures Checking(w0, Advance(v, Go(p, ch)), p, VPhase, Lease(ch.owner, ch.token), Status.Claimed, false, false)
  {
    hide Answered, IsWorkerId, Claiming, Leased, Beating, Owned, CanComplete, Closing, Genuine, Summarize, OpsWith, Held;
    GoesTo(v, p, ch);
    ClaimsHeld(v, Prepared, ch);
  }

  lemma CheckPhase(w0: World, v: World, p: nat, lease: Lease, ch: Choice)
    requires Checking(w0, v, p, VPhase, lease, Status.Claimed, false, false) && Easy(v, ch) && !w0.row.cancel
    ensures Checking(w0, Advance(v, Go(p, ch)), p, VStart, lease, Validating, true, false)
  {
    hide Answered, IsWorkerId, Claiming, Leased, Beating, Owned, CanComplete, Closing, Genuine, Summarize, OpsWith;
    GoesTo(v, p, ch);
    MovesHeld(v, lease, Status.Claimed, Validating, ch);
  }

  lemma CheckStart(w0: World, v: World, p: nat, lease: Lease, ch: Choice)
    requires Checking(w0, v, p, VStart, lease, Validating, true, false) && Easy(v, ch)
    ensures Checking(w0, Advance(v, Go(p, ch)), p, VRun, lease, Validating, true, true)
  {
    hide Answered, IsWorkerId, Claiming, Leased, Beating, Owned, CanComplete, Closing, Genuine, Summarize, OpsWith, Held, SameWork;
    GoesTo(v, p, ch);
  }

  lemma CheckRun(w0: World, v: World, p: nat, lease: Lease, ch: Choice)
    requires Checking(w0, v, p, VRun, lease, Validating, true, true) && Easy(v, ch) && Genuine(w0.actions, ch.execution)
    ensures Checking(w0, Advance(v, Go(p, ch)), p, VReadAgain(Summarize(w0.actions, ch.execution)), lease, Validating, true, true)
  {
    hide Answered, IsWorkerId, Claiming, Leased, Beating, Owned, CanComplete, Closing, Summarize, OpsWith, Held, SameWork;
    GoesTo(v, p, ch);
  }

  lemma CheckRead(w0: World, v: World, p: nat, lease: Lease, summary: Summary, ch: Choice)
    requires Checking(w0, v, p, VReadAgain(summary), lease, Validating, true, true) && Easy(v, ch)
    ensures var u := Advance(v, Go(p, ch)); u.row == v.row && Checking(w0, u, p, VEnd(summary, u.row), lease, Validating, true, true)
  {
    hide Answered, IsWorkerId, Claiming, Leased, Beating, Owned, CanComplete, Closing, Genuine, Summarize, OpsWith, Held, SameWork;
    GoesTo(v, p, ch);
  }

  lemma JudgeStep(w0: World, v: World, p: nat, lease: Lease, summary: Summary, ch: Choice)
    requires Checking(w0, v, p, VEnd(summary, v.row), lease, Validating, true, true) && Easy(v, ch)
    ensures Judged(w0, Advance(v, Go(p, ch)), p, VRecord, summary, ch.notes, STARTED)
  {
    hide Answered, IsWorkerId, Claiming, Leased, Beating, Owned, CanComplete, Closing, Genuine, Summarize, OpsWith, Verdict, SameWork,
      Final, FinalStatus;
    GoesTo(v, p, ch);
    var cancelled := summary.cancelled || v.row.cancel;
    var changes := ch.notes.(summary := Some(Final(summary, cancelled)));
    EndsAllowed(summary, v.row.cancel);
    EndsHeld(v, lease, Validating, FinalStatus(summary, cancelled), changes, ch);
    VerdictOfRow(w0.row, v.row, Owned(v, v.row, FinalStatus(summary, cancelled), changes, ch.now).0, summary, ch.notes);
  }

  lemma EndsAllowed(summary: Summary, flag: bool)
    ensures var target := FinalStatus(summary, summary.cancelled || flag);
      CanMove(Validating, target) && !Guarded(target) && (flag ==> target == Cancelled)
  {
  }

  lemma VerdictOfRow(b: Row, m: Row, a: Row, summary: Summary, c: Changes)
    requires SameWork(b, m)
    requires var cancelled := summary.cancelled || m.cancel;
      a.status == FinalStatus(summary, cancelled) && Free(a) && SameTask(m, a) && a.cancel == m.cancel
      && ColumnsAfter(m, a, c.(summary := Some(Final(summary, cancelled))))
    ensures Verdict(b, a, summary, c)
  {
  }

  lemma JudgeRecord(w0: World, v: World, p: nat, summary: Summary, c: Changes, ch: Choice)
    requires Judged(w0, v, p, VRecord, summary, c, STARTED) && Easy(v, ch)
    ensures Judged(w0, Advance(v, Go(p, ch)), p, VComplete, summary, c, STARTED)
  {
    hide Answered, IsWorkerId, Claiming, Leased, Beating, Owned, CanComplete, Closing, Genuine, Summarize, OpsWith, Verdict;
    GoesTo(v, p, ch);
  }

  lemma SameValidateKey(w0: World, v: World, p: nat)
    requires p in w0.procs && p in v.procs && v.id == w0.id && w0.procs[p].Validate? && v.procs[p].Validate?
    requires v.procs[p].key == w0.procs[p].key
    ensures CallKey(v.id, v.procs[p]) == CallKey(w0.id, w0.procs[p])
  {
  }

  lemma JudgeComplete(w0: World, v: World, p: nat, summary: Summary, c: Changes, ch: Choice)
    requires Judged(w0, v, p, VComplete, summary, c, STARTED) && Easy(v, ch) && CanBegin(w0, w0.procs[p])
    ensures Judged(w0, Advance(v, Go(p, ch)), p, VDone, summary, c, Op(OpCompleted, Some(ch.result), None, None))
  {
    hide Answered, IsWorkerId, Claiming, Leased, Beating, Owned, CanComplete, Closing, Genuine, Summarize, Verdict, IsKey, Affected;
    GoesTo(v, p, ch);
    SameValidateKey(w0, v, p);
    ClosesAlone(v, p, v.procs[p], ch);
  }

  /** A validation of a prepared job that nothing disturbs is entered and started once, stores the summary of
      its execution and the status that follows from it, drops its lease, and completes its operation. */
  lemma ValidateAlone(w: World, p: nat, chs: seq<Choice>)
    requires p in w.procs && w.procs[p].Validate? && w.procs[p] == NewValidate(w.procs[p].key) && CanBegin(w, w.procs[p])
    requires w.row.status == Prepared && !w.row.cancel && |chs| == 10 && Smooth(w, p, chs)
    requires chs[5].execution.Executed? && Genuine(w.actions, chs[5].execution)
    ensures Judged(w, Alone(w, p, chs), p, VDone, Summarize(w.actions, chs[5].execution), chs[7].notes,
                   Op(OpCompleted, Some(chs[9].result), None, None))
  {
    hide Asking, Checking, Judged, Advance, Smooth, Alone, Easy, CanBegin, Genuine, Summarize;
    Next(w, p, chs);
    AskFirst(w, p, chs[0]);
    var a := Advance(w, Go(p, chs[0]));
    Follow(a, p, chs, 1);
    AskRead(w, a, p, chs[1]);
    var b := Advance(a, Go(p, chs[1]));
    Follow(b, p, chs, 2);
    CheckClaim(w, b, p, chs[2]);
    var c := Advance(b, Go(p, chs[2]));
    Follow(c, p, chs, 3);
    var lease := Lease(chs[2].owner, chs[2].token);
    CheckPhase(w, c, p, lease, chs[3]);
    var d := Advance(c, Go(p, chs[3]));
    Follow(d, p, chs, 4);
    CheckStart(w, d, p, lease, chs[4]);
    var e := Advance(d, Go(p, chs[4]));
    Follow(e, p, chs, 5);
    CheckRun(w, e, p, lease, chs[5]);
    JudgeAlone(w, Advance(e, Go(p, chs[5])), p, lease, Summarize(w.actions, chs[5].execution), chs);
  }

  lemma Follow(v: World, p: nat, chs: seq<Choice>, i: nat)
    requires i < |chs| && Smooth(v, p, chs[i..])
    ensures var u := Advance(v, Go(p, chs[i]));
      Easy(v, chs[i]) && Smooth(u, p, chs[i + 1..]) && Alone(v, p, chs[i..]) == Alone(u, p, chs[i + 1..])
  {
    hide Advance, Easy, Smooth, Alone;
    Next(v, p, chs[i..]);
    assert chs[i..][0] == chs[i] && chs[i..][1..] == chs[i + 1..];
  }

  lemma JudgeAlone(w: World, v: World, p: nat, lease: Lease, summary: Summary, chs: seq<Choice>)
    requires |chs| == 10 && Smooth(v, p, chs[6..]) && Checking(w, v, p, VReadAgain(summary), lease, Validating, true, true)
    requires p in w.procs && CanBegin(w, w.procs[p])
    ensures Judged(w, Alone(v, p, chs[6..]), p, VDone, summary, chs[7].notes, Op(OpCompleted, Some(chs[9].result), None, None))
  {
    hide Checking, Judged, Advance, Smooth, Alone, Easy, CanBegin;
    Follow(v, p, chs, 6);
    CheckRead(w, v, p, lease, summary, chs[6]);
    var a := Advance(v, Go(p, chs[6]));
    Follow(a, p, chs, 7);
    JudgeStep(w, a, p, lease, summary, chs[7]);
    var b := Advance(a, Go(p, chs[7]));
    Follow(b, p, chs, 8);
    JudgeRecord(w, b, p, summary, chs[7].notes, chs[8]);
    var c := Advance(b, Go(p, chs[8]));
    Follow(c, p, chs, 9);
    JudgeComplete(w, c, p, summary, chs[7].notes, chs[9]);
    assert chs[10..] == [];
    Done(Advance(c, Go(p, chs[9])), p);
  }

  // ---------------------------------------------------------------- prepare

  /** With the lease: the call stands at this point and has built the workspace from these files, or not yet. */
  ghost predicate Building(w0: World, v: World, p: nat, at: PreparePoint, lease: Lease, status: Status, files: Option<Contents>,
                           revision: Option<string>)
  {
    && p in w0.procs && p in v.procs && v.procs[p] == Prepare(at, Some(lease))
    && v == w0.(row := v.row, used := v.used, procs := w0.procs[p := v.procs[p]],
                baseline := files.GetOr(w0.baseline), workspace := files.GetOr(w0.workspace),
                recorded := if files.Some? then revision else w0.recorded)
    && Held(v.row, lease, status) && v.row.attempt == w0.row.attempt + 1
  }

  /** What preparation leaves in the row: where the workspace lies, and at which revision it was made. */
  predicate Furnished(b: Row, a: Row, place: Option<string>, revision: Option<string>) {
    && a.project == b.project && a.request == b.request && a.intent == b.intent && a.risk == b.risk && a.key == b.key
    && a.summary == b.summary && a.cancel == b.cancel && a.notes == b.notes.(workspace := place, revision := revision)
  }

  lemma BuildClaim(w0: World, p: nat, ch: Choice)
    requires p in w0.procs && w0.procs[p] == Prepare(PClaim, None) && Easy(w0, ch) && w0.row.status == Queued && !w0.row.cancel
    ensures var v := Advance(w0, Go(p, ch));
      Building(w0, v, p, PPhase, Lease(ch.owner, ch.token), Status.Claimed, None, None) && SameWork(w0.row, v.row)
  {
    hide IsWorkerId, Claiming, Leased, Owned, Held;
    GoesTo(w0, p, ch);
    ClaimsHeld(w0, Queued, ch);
  }

  lemma BuildPhase(w0: World, v: World, p: nat, lease: Lease, ch: Choice)
    requires Building(w0, v, p, PPhase, lease, Status.Claimed, None, None) && Easy(v, ch) && SameWork(w0.row, v.row) && !w0.row.cancel
    ensures var u := Advance(v, Go(p, ch)); Building(w0, u, p, PLook, lease, Status.Preparing, None, None) && SameWork(w0.row, u.row)
  {
    hide IsWorkerId, Claiming, Leased, Owned;
    GoesTo(v, p, ch);
    MovesHeld(v, lease, Status.Claimed, Status.Preparing, ch);
  }

  lemma BuildLook(w0: World, v: World, p: nat, lease: Lease, ch: Choice)
    requires Building(w0, v, p, PLook, lease, Status.Preparing, None, None) && Easy(v, ch) && SameWork(w0.row, v.row) && !w0.row.cancel
    ensures var u := Advance(v, Go(p, ch)); Building(w0, u, p, PBuild, lease, Status.Preparing, None, None) && u.row == v.row
  {
    hide IsWorkerId, Claiming, Leased, Owned, Held;
    GoesTo(v, p, ch);
  }

  lemma BuildFiles(w0: World, v: World, p: nat, lease: Lease, ch: Choice)
    requires Building(w0, v, p, PBuild, lease, Status.Preparing, None, None) && Easy(v, ch)
    ensures var u := Advance(v, Go(p, ch));
      Building(w0, u, p, PUpdate, lease, Status.Preparing, Some(ch.files), ch.revision) && u.row == v.row
  {
    hide IsWorkerId, Claiming, Leased, Owned, Held;
    GoesTo(v, p, ch);
  }

  lemma BuildUpdate(w0: World, v: World, p: nat, lease: Lease, files: Contents, revision: Option<string>, ch: Choice)
    requires Building(w0, v, p, PUpdate, lease, Status.Preparing, Some(files), revision) && Easy(v, ch) && SameWork(w0.row, v.row)
    ensures var u := Advance(v, Go(p, ch));
      Building(w0, u, p, PLookAgain(u.row), lease, Status.Preparing, Some(files), revision)
      && Furnished(w0.row, u.row, ch.place, ch.revision)
  {
    hide IsWorkerId, Claiming, Leased, Owned;
    GoesTo(v, p, ch);
  }

  lemma BuildLookAgain(w0: World, v: World, p: nat, lease: Lease, files: Contents, revision: Option<string>, ch: Choice)
    requires Building(w0, v, p, PLookAgain(v.row), lease, Status.Preparing, Some(files), revision) && Easy(v, ch) && !v.row.cancel
    ensures var u := Advance(v, Go(p, ch));
      Building(w0, u, p, PFinish(u.row), lease, Status.Preparing, Some(files), revision) && u.row == v.row
  {
    hide IsWorkerId, Claiming, Leased, Owned, Held;
    GoesTo(v, p, ch);
  }

  /** The job is prepared, and the call stands at this point. */
  ghost predicate Furnishes(w0: World, v: World, p: nat, at: PreparePoint, files: Contents, revision: Option<string>, placed: Row, c: Changes) {
    && p in w0.procs && p in v.procs && v.procs[p].Prepare? && v.procs[p].pp == at
    && v == w0.(row := v.row, used := v.used, procs := w0.procs[p := v.procs[p]], baseline := files, workspace := files,
                recorded := revision)
    && v.row.status == Prepared && Free(v.row) && v.row.attempt == w0.row.attempt + 1
    && SameTask(placed, v.row) && v.row.summary == placed.summary && v.row.cancel == placed.cancel
    && ColumnsAfter(placed, v.row, c.(summary := None))
  }

  lemma FurnishFinish(w0: World, v: World, p: nat, lease: Lease, files: Contents, revision: Option<string>, ch: Choice)
    requires Building(w0, v, p, PFinish(v.row), lease, Status.Preparing, Some(files), revision) && Easy(v, ch) && !v.row.cancel
    ensures Furnishes(w0, Advance(v, Go(p, ch)), p, PRecord, files, revision, v.row, ch.notes)
  {
    hide IsWorkerId, Claiming, Leased, Owned, SameTask;
    GoesTo(v, p, ch);
    EndsHeld(v, lease, Status.Preparing, Prepared, Texts(ch.notes), ch);
  }

  lemma FurnishRecord(w0: World, v: World, p: nat, files: Contents, revision: Option<string>, placed: Row, c: Changes, ch: Choice)
    requires Furnishes(w0, v, p, PRecord, files, revision, placed, c) && Easy(v, ch)
    ensures Furnishes(w0, Advance(v, Go(p, ch)), p, PDone, files, revision, placed, c)
  {
    hide IsWorkerId, Claiming, Leased, Owned, SameTask, ColumnsAfter, Free;
    GoesTo(v, p, ch);
  }

  /** A preparation of a new job that nothing disturbs makes the workspace and its baseline of the same files,
      records where it lies and its revision, and leaves the job prepared and unleased. */
  lemma PrepareAlone(w: World, p: nat, chs: seq<Choice>) returns (placed: Row)
    requires p in w.procs && w.procs[p] == Prepare(PClaim, None) && w.row.status == Queued && !w.row.cancel
    requires |chs| == 8 && Smooth(w, p, chs)
    ensures Furnished(w.row, placed, chs[4].place, chs[4].revision)
    ensures Furnishes(w, Alone(w, p, chs), p, PDone, chs[3].files, chs[3].revision, placed, chs[6].notes)
  {
    hide Building, Furnishes, Furnished, Advance, Smooth, Alone, Easy, SameWork;
    Next(w, p, chs);
    BuildClaim(w, p, chs[0]);
    var lease := Lease(chs[0].owner, chs[0].token);
    var a := Advance(w, Go(p, chs[0]));
    Follow(a, p, chs, 1);
    BuildPhase(w, a, p, lease, chs[1]);
    var b := Advance(a, Go(p, chs[1]));
    Follow(b, p, chs, 2);
    BuildLook(w, b, p, lease, chs[2]);
    var c := Advance(b, Go(p, chs[2]));
    Follow(c, p, chs, 3);
    BuildFiles(w, c, p, lease, chs[3]);
    var d := Advance(c, Go(p, chs[3]));
    Follow(d, p, chs, 4);
    BuildUpdate(w, d, p, lease, chs[3].files, chs[3].revision, chs[4]);
    var e := Advance(d, Go(p, chs[4]));
    placed := e.row;
    FurnishAlone(w, e, p, lease, chs);
  }

  lemma FurnishAlone(w: World, e: World, p: nat, lease: Lease, chs: seq<Choice>)
    requires |chs| == 8 && Smooth(e, p, chs[5..]) && !w.row.cancel
    requires Building(w, e, p, PLookAgain(e.row), lease, Status.Preparing, Some(chs[3].files), chs[3].revision)
    requires Furnished(w.row, e.row, chs[4].place, chs[4].revision)
    ensures Furnishes(w, Alone(e, p, chs[5..]), p, PDone, chs[3].files, chs[3].revision, e.row, chs[6].notes)
  {
    hide Building, Furnishes, Advance, Smooth, Alone, Easy;
    Follow(e, p, chs, 5);
    BuildLookAgain(w, e, p, lease, chs[3].files, chs[3].revision, chs[5]);
    var f := Advance(e, Go(p, chs[5]));
    Follow(f, p, chs, 6);
    FurnishFinish(w, f, p, lease, chs[3].files, chs[3].revision, chs[6]);
    var g := Advance(f, Go(p, chs[6]));
    Follow(g, p, chs, 7);
    FurnishRecord(w, g, p, chs[3].files, chs[3].revision, e.row, chs[6].notes, chs[7]);
    assert chs[8..] == [];
    Done(Advance(g, Go(p, chs[7])), p);
  }
}
