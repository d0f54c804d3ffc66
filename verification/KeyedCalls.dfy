/** Keyed validate and publish calls, end to end: one key, one effect, one answer. */
module KeyedCalls {
  import opened Text
  import opened Runner
  import opened Jobs
  import opened Runs
  import opened Workspaces
  import opened ControlPlane
  import opened ControlPlaneProofs
  import KeyedOperations

  /** The call has begun its work: it is past the beginning of its operation and has not returned. */
  predicate Working(proc: Proc) {
    if proc.Prepare? then true
    else if proc.Validate? then !proc.vp.VBegin? && !proc.vp.VDone?
    else !proc.bp.BRead? && !proc.bp.BBegin? && !proc.bp.BDone?
  }

  predicate Unbegun(proc: Proc) {
    if proc.Prepare? then false else if proc.Validate? then proc.vp.VBegin? else proc.bp.BRead? || proc.bp.BBegin?
  }

  predicate WentAhead(proc: Proc) { !proc.Prepare? && proc.answer == GoneAhead }

  /** A keyed call works, and has a lease, only if it was told to go ahead; its operation is stored then, and
      is started as long as the call works. A terminal operation that it was told instead is the stored one. */
  predicate CallOk(w: World, proc: Proc) {
    CallKey(w.id, proc).Some? ==>
      var k := CallKey(w.id, proc).value;
      && (Working(proc) || proc.lease.Some? ==> WentAhead(proc))
      && (Unbegun(proc) ==> proc.answer == NotAsked && proc.lease.None?)
      && (WentAhead(proc) ==> k in w.ops && IsKey(k.key) && (Working(proc) ==> w.ops[k].state == Started))
      && (proc.answer.Told? ==> k in w.ops && (proc.answer.op.state != Started ==> w.ops[k] == proc.answer.op))
  }

  /** Of all calls with one key at most one was told to go ahead. */
  predicate OneAhead(w: World) {
    forall p, q :: p in w.procs && q in w.procs && p != q && WentAhead(w.procs[p]) && WentAhead(w.procs[q]) ==>
      CallKey(w.id, w.procs[p]) != CallKey(w.id, w.procs[q]) || CallKey(w.id, w.procs[p]).None?
  }

  predicate FinishedFor(id: string, proc: Proc, k: OpKey) {
    proc.Publish? && CallKey(id, proc) == Some(k) && Finished in proc.trace
  }

  /** A completed publish operation belongs to a publication that finished. */
  ghost predicate PublishedOk(w: World) {
    forall k :: k in w.ops && k.operation == "publish" && w.ops[k].state == OpCompleted ==>
      exists p :: p in w.procs && FinishedFor(w.id, w.procs[p], k)
  }

  ghost predicate KeysOk(w: World) {
    (forall p :: p in w.procs ==> CallOk(w, w.procs[p])) && OneAhead(w) && PublishedOk(w)
  }

  // ---------------------------------------------------------------- what a step does to the operations

  /** Operations stay, and terminal ones stay as they are. */
  predicate OpsKept(w: World, v: World) {
    forall k :: k in w.ops ==> k in v.ops && (w.ops[k].state != Started ==> v.ops[k] == w.ops[k])
  }

  lemma EffectKeepsOps(w: World, p: nat, e: Effect)
    ensures OpsKept(w, Affected(w, p, e)) && Affected(w, p, e).id == w.id
  {
    hide Perform;
    var v := Affected(w, p, e);
    forall k | k in w.ops ensures k in v.ops && (w.ops[k].state != Started ==> v.ops[k] == w.ops[k]) {
      if e.Begins? {
        PerformBegin(Tables(w), e.k);
        KeyedOperations.StepKeepsOps(Tables(w), BeginCall(e.k), k);
      } else if e.Finishes? && e.result.state != Started {
        PerformFinish(Tables(w), e.k, e.result);
        KeyedOperations.StepKeepsOps(Tables(w), FinishCall(e.k, e.result), k);
      }
    }
  }

  lemma PerformBegin(s: State, k: OpKey)
    ensures Perform(s, BeginCall(k)) == Begin(s, k)
  {
  }

  lemma PerformFinish(s: State, k: OpKey, op: Op)
    requires op.state != Started
    ensures Perform(s, FinishCall(k, op)) == Finish(s, k, op)
  {
  }

  /** A new operation is a started one, and an operation is completed only by the call that finishes it. */
  lemma EffectOnOp(w: World, p: nat, e: Effect, k: OpKey)
    requires k in Affected(w, p, e).ops
    ensures (k in w.ops && Affected(w, p, e).ops[k] == w.ops[k])
      || (e == Begins(k) && k !in w.ops && Affected(w, p, e).ops[k].state == Started)
      || (e.Finishes? && e.k == k && Affected(w, p, e).ops[k] == e.result)
  {
    hide IsKey, IsOperation;
  }

  lemma AnsweredFacts(w: World, k: OpKey)
    ensures Answered(w, k) == Some(GoneAhead) ==>
      k !in w.ops && IsKey(k.key) && k in Begin(Tables(w), k).0.ops && Begin(Tables(w), k).0.ops[k].state == Started
    ensures Answered(w, k).Some? && Answered(w, k).value.Told? ==> k in w.ops && w.ops[k] == Answered(w, k).value.op
    ensures Answered(w, k).Some? ==> Answered(w, k).value != NotAsked
  {
    hide IsKey, IsOperation;
  }

  // ---------------------------------------------------------------- one step of a call

  /** What a step does to the standing of the call itself. */
  predicate StepOk(w: World, proc: Proc, o: Outcome) {
    && CallKey(w.id, o.proc) == CallKey(w.id, proc)
    && (proc.Publish? <==> o.proc.Publish?) && (proc.Prepare? <==> o.proc.Prepare?)
    && (proc.Publish? ==> proc.trace <= o.proc.trace)
    && (WentAhead(o.proc) && !WentAhead(proc) ==>
          Unbegun(proc) && CallKey(w.id, proc).Some? && CallKey(w.id, proc).value !in w.ops
          && o.effect == Begins(CallKey(w.id, proc).value))
    && (o.effect.Finishes? ==> CallKey(w.id, proc) == Some(o.effect.k) && Working(proc) && !Working(o.proc))
    && (o.effect.Begins? ==> CallKey(w.id, proc) == Some(o.effect.k) && WentAhead(o.proc) && !WentAhead(proc))
    && (o.proc.Prepare? || o.proc.answer == proc.answer || (
          Unbegun(proc) && CallKey(w.id, proc).Some? && Answered(w, CallKey(w.id, proc).value) == Some(o.proc.answer)))
    && (Unbegun(o.proc) ==> Unbegun(proc) && o.proc.answer == proc.answer && o.proc.lease == proc.lease)
    && (CallKey(w.id, proc).Some? && (Working(o.proc) || o.proc.lease.Some?) ==>
          Working(proc) || proc.lease.Some? || WentAhead(o.proc))
    && (CallKey(w.id, proc).Some? && Working(o.proc) ==> Working(proc) || o.effect.Begins?)
    && (o.effect.Finishes? && proc.Publish? && o.effect.result.state == OpCompleted ==> proc.bp.BComplete?)
  }

  lemma ValidateKeys(w: World, proc: Proc, ch: Choice)
    requires proc.Validate? && CallOk(w, proc)
    ensures StepOk(w, proc, StepValidate(w, proc, ch))
  {
    hide Claiming, Leased, Owned, Beating, Transact, Genuine, Summarize, Answered, CanComplete, FinalStatus, Final, IsKey;
    if CallKey(w.id, proc).Some? { AnsweredFacts(w, CallKey(w.id, proc).value); }
  }

  lemma PublishKeys(w: World, proc: Proc, ch: Choice)
    requires proc.Publish? && CallOk(w, proc)
    ensures StepOk(w, proc, StepPublish(w, proc, ch))
  {
    hide StepOk, StepPublish, CallOk;
    if proc.bp.BBegin? { PublishBegins(w, proc, ch); } else { PublishGoesOn(w, proc, ch); }
  }

  lemma PublishBegins(w: World, proc: Proc, ch: Choice)
    requires proc.Publish? && CallOk(w, proc) && proc.bp.BBegin?
    ensures StepOk(w, proc, StepPublish(w, proc, ch))
  {
    hide Claiming, Leased, Owned, Beating, ExactDiff, SourceStale, Answered, CopiedPaths, IsKey, Begin;
    if CallKey(w.id, proc).Some? { AnsweredFacts(w, CallKey(w.id, proc).value); }
  }

  lemma PublishGoesOn(w: World, proc: Proc, ch: Choice)
    requires proc.Publish? && CallOk(w, proc) && !proc.bp.BBegin?
    ensures StepOk(w, proc, StepPublish(w, proc, ch))
  {
    hide Claiming, Leased, Owned, Beating, ExactDiff, SourceStale, Answered, CanComplete, CopiedPaths, IsKey, CallOk;
  }

  lemma PrepareKeys(w: World, proc: Proc, ch: Choice)
    requires proc.Prepare?
    ensures StepOk(w, proc, StepPrepare(w, proc, ch))
  {
    hide Claiming, Leased, Owned, Transact;
  }

  lemma CallKeys(w: World, p: nat, ch: Choice)
    requires p in w.procs && CallOk(w, w.procs[p])
    ensures var o := StepProc(w, w.procs[p], ch); StepOk(w, w.procs[p], o) && CallOk(Affected(w, p, o.effect), o.proc)
  {
    hide StepPrepare, StepValidate, StepPublish, CallOk, StepOk, Affected;
    if w.procs[p].Prepare? {
      PrepareKeys(w, w.procs[p], ch);
    } else if w.procs[p].Validate? {
      ValidateKeys(w, w.procs[p], ch);
    } else {
      PublishKeys(w, w.procs[p], ch);
    }
    StepKeepsCall(w, p, w.procs[p], StepProc(w, w.procs[p], ch));
  }

  lemma StepKeepsCall(w: World, p: nat, proc: Proc, o: Outcome)
    requires CallOk(w, proc) && StepOk(w, proc, o)
    ensures CallOk(Affected(w, p, o.effect), o.proc)
  {
    hide Affected, Working, Unbegun, Answered, IsKey;
    EffectKeepsOps(w, p, o.effect);
    if CallKey(w.id, proc).Some? {
      var k := CallKey(w.id, proc).value;
      AnsweredFacts(w, k);
      if o.effect.Begins? { BeginsOp(w, p, k); }
      if k in Affected(w, p, o.effect).ops { EffectOnOp(w, p, o.effect, k); }
    }
  }

  lemma BeginsOp(w: World, p: nat, k: OpKey)
    ensures Affected(w, p, Begins(k)).ops == Begin(Tables(w), k).0.ops
  {
    hide Begin;
  }

  /** A call's standing depends on the operations alone, and while it works on its own not changing. */
  lemma CallStands(w: World, v: World, proc: Proc)
    requires CallOk(w, proc) && OpsKept(w, v) && v.id == w.id && OwnOpSame(w, v, proc)
    ensures CallOk(v, proc)
  {
    hide IsKey;
  }

  /** The operation of a call that went ahead is the same. */
  predicate OwnOpSame(w: World, v: World, proc: Proc) {
    CallKey(w.id, proc).Some? && WentAhead(proc) ==>
      var k := CallKey(w.id, proc).value;
      k in w.ops && k in v.ops && v.ops[k] == w.ops[k]
  }

  /** No step of one call changes the operation of another. */
  lemma OthersOpSame(w: World, p: nat, q: nat, o: Outcome)
    requires OneAhead(w) && p in w.procs && q in w.procs && p != q && StepOk(w, w.procs[p], o)
    requires CallOk(w, w.procs[p]) && CallOk(w, w.procs[q])
    ensures OwnOpSame(w, Affected(w, p, o.effect), w.procs[q])
  {
    hide Affected, CallKey, IsKey;
    EffectKeepsOps(w, p, o.effect);
    if CallKey(w.id, w.procs[q]).Some? && WentAhead(w.procs[q]) {
      EffectOnOp(w, p, o.effect, CallKey(w.id, w.procs[q]).value);
    }
  }

  lemma GoKeepsKeys(w: World, p: nat, ch: Choice)
    requires WorldOk(w) && KeysOk(w) && Enabled(w, p, ch)
    ensures KeysOk(Advance(w, Go(p, ch)))
  {
    hide WorldOk, StepProc, Affected, CallOk, StepOk, OneAhead, PublishedOk, ClaimsNext, OpsKept, OwnOpSame;
    var o := StepProc(w, w.procs[p], ch);
    var v := Affected(w, p, o.effect);
    var u := Advance(w, Go(p, ch));
    AffectedKeeps(w, p, o.effect);
    EffectKeepsOps(w, p, o.effect);
    CallKeys(w, p, ch);
    SameOps(v, u);
    forall q | q in u.procs ensures CallOk(u, u.procs[q]) {
      if q == p {
        OwnOpKept(v, u, o.proc);
        CallStands(v, u, o.proc);
      } else {
        OthersOpSame(w, p, q, o);
        CallStands(w, v, w.procs[q]);
        OwnOpKept(v, u, w.procs[q]);
        CallStands(v, u, w.procs[q]);
      }
    }
    StillOneAhead(w, p, o, u);
    StillPublished(w, p, o, u);
  }

  lemma OwnOpKept(v: World, u: World, proc: Proc)
    requires CallOk(v, proc) && u.ops == v.ops
    ensures OwnOpSame(v, u, proc)
  {
    hide IsKey, CallKey;
  }

  lemma SameOps(v: World, u: World)
    requires u.ops == v.ops
    ensures OpsKept(v, u)
  {
  }

  lemma StillOneAhead(w: World, p: nat, o: Outcome, u: World)
    requires OneAhead(w) && p in w.procs && StepOk(w, w.procs[p], o)
    requires forall q :: q in w.procs ==> CallOk(w, w.procs[q])
    requires u.id == w.id && u.procs == w.procs[p := o.proc]
    ensures OneAhead(u)
  {
    hide CallKey, Working, Unbegun, IsKey;
  }

  lemma StillPublished(w: World, p: nat, o: Outcome, u: World)
    requires WorldOk(w) && PublishedOk(w) && p in w.procs && StepOk(w, w.procs[p], o)
    requires u.id == w.id && u.procs == w.procs[p := o.proc] && u.ops == Affected(w, p, o.effect).ops
    ensures PublishedOk(u)
  {
    hide WorldOk, CallKey, Affected, Unbegun;
    forall k | k in u.ops && k.operation == "publish" && u.ops[k].state == OpCompleted
      ensures exists q :: q in u.procs && FinishedFor(u.id, u.procs[q], k)
    {
      EffectOnOp(w, p, o.effect, k);
      if k in w.ops && u.ops[k] == w.ops[k] {
        var q :| q in w.procs && FinishedFor(w.id, w.procs[q], k);
        assert FinishedFor(u.id, u.procs[q], k);
      } else {
        PublishKeyed(w.id, w.procs[p], k);
        StandsAt(w, p);
        CompletesFinished(w, p);
        assert FinishedFor(u.id, u.procs[p], k);
      }
    }
  }

  lemma PublishKeyed(id: string, proc: Proc, k: OpKey)
    requires CallKey(id, proc) == Some(k) && k.operation == "publish"
    ensures proc.Publish?
  {
    assert "publish"[0] != "validate"[0];
  }

  lemma CompletesFinished(w: World, p: nat)
    requires WorldOk(w) && p in w.procs && w.procs[p].Publish? && w.procs[p].bp.BComplete?
    ensures Finished in w.procs[p].trace
  {
    hide WorldOk, WellPaced, EndsWith, CopiedPaths, DiffOk, Holding, JustClaimed;
    StandsAt(w, p);
  }

  lemma AdvanceKeepsKeys(w: World, m: Move)
    requires WorldOk(w) && KeysOk(w)
    ensures KeysOk(Advance(w, m))
  {
    hide WorldOk, StepProc, Transact, Affected, ClaimsNext, CallKey;
    if m.Go? && Enabled(w, m.p, m.ch) { GoKeepsKeys(w, m.p, m.ch); } else { OthersKeepKeys(w, m); }
  }

  lemma OthersKeepKeys(w: World, m: Move)
    requires KeysOk(w) && (m.Go? ==> !Enabled(w, m.p, m.ch))
    ensures KeysOk(Advance(w, m))
  {
    hide Advance, CallKey, CallOk;
    var u := Advance(w, m);
    OthersLeaveCalls(w, m);
    SameOps(w, u);
    forall p | p in u.procs ensures CallOk(u, u.procs[p]) {
      if p in w.procs {
        OwnOpKept(w, u, w.procs[p]);
        CallStands(w, u, w.procs[p]);
      } else {
        NewcomersOk(u, u.procs[p]);
      }
    }
    forall p | p in u.procs && p !in w.procs ensures !WentAhead(u.procs[p]) { NewcomersOk(u, u.procs[p]); }
    forall k | k in u.ops && k.operation == "publish" && u.ops[k].state == OpCompleted
      ensures exists p :: p in u.procs && FinishedFor(u.id, u.procs[p], k)
    {
      var p :| p in w.procs && FinishedFor(w.id, w.procs[p], k);
      assert u.procs[p] == w.procs[p];
    }
  }

  predicate Newcomer(proc: Proc) { !proc.Prepare? && (proc == NewValidate(proc.key) || proc == NewPublish(proc.key)) }

  /** What moves other than a call's own steps do to the calls: at most one new call. */
  lemma OthersLeaveCalls(w: World, m: Move)
    requires m.Go? ==> !Enabled(w, m.p, m.ch)
    ensures var u := Advance(w, m);
      && u.ops == w.ops && u.id == w.id
      && (u.procs == w.procs
          || ((m.StartValidate? || m.StartPublish?) && m.p !in w.procs && m.p in u.procs && Newcomer(u.procs[m.p])
              && u.procs == w.procs[m.p := u.procs[m.p]]))
  {
    hide StepProc, Transact, Affected, ClaimsNext;
  }

  lemma NewcomersOk(w: World, proc: Proc)
    requires Newcomer(proc)
    ensures CallOk(w, proc) && !WentAhead(proc)
  {
  }

  lemma InitialKeys(w: World)
    requires Initial(w)
    ensures KeysOk(w)
  {
  }

  lemma {:induction false} ReachableKeys(start: World, moves: seq<Move>)
    requires Initial(start)
    ensures KeysOk(WorldAfter(start, moves))
    decreases |moves|
  {
    hide KeysOk, Advance, Initial, WorldOk;
    if moves == [] {
      InitialKeys(start);
    } else {
      ReachableKeys(start, moves[..|moves| - 1]);
      ReachableOk(start, moves[..|moves| - 1]);
      AdvanceKeepsKeys(WorldAfter(start, moves[..|moves| - 1]), moves[|moves| - 1]);
    }
  }

  // ---------------------------------------------------------------- one key, one effect

  /** Of all validate calls with one key, and of all publish calls with one key, at most one ever claims the
      job, and so at most one starts a validation or copies a file, whatever runs in between. */
  lemma OneCallPerKeyActs(start: World, moves: seq<Move>, p: nat, q: nat)
    requires Initial(start)
    requires var w := WorldAfter(start, moves);
      p in w.procs && q in w.procs && p != q && CallKey(w.id, w.procs[p]).Some?
      && CallKey(w.id, w.procs[p]) == CallKey(w.id, w.procs[q])
    ensures var w := WorldAfter(start, moves);
      && (w.procs[p].lease.None? || w.procs[q].lease.None?)
      && (w.procs[p].Publish? && w.procs[q].Publish? ==> w.procs[p].trace == [] || w.procs[q].trace == [])
  {
    hide WorldAfter, Initial, WorldOk, TraceOk, DiffOk, CallKey;
    ReachableOk(start, moves);
    ReachableKeys(start, moves);
    var w := WorldAfter(start, moves);
    assert CallOk(w, w.procs[p]) && CallOk(w, w.procs[q]);
    StandsAt(w, p);
    StandsAt(w, q);
    if w.procs[p].Publish? { TraceHolds(w.procs[p]); }
    if w.procs[q].Publish? { TraceHolds(w.procs[q]); }
  }

  /** A call that was answered with a terminal operation was told what is stored under its key, now and for
      ever; so all calls with one key that are answered so are answered alike. */
  lemma ToldStandsForGood(start: World, moves: seq<Move>, p: nat)
    requires Initial(start)
    requires var w := WorldAfter(start, moves);
      p in w.procs && CallKey(w.id, w.procs[p]).Some? && w.procs[p].answer.Told? && w.procs[p].answer.op.state != Started
    ensures var w := WorldAfter(start, moves); var k := CallKey(w.id, w.procs[p]).value;
      k in w.ops && w.ops[k] == w.procs[p].answer.op && w.procs[p].lease.None?
  {
    hide WorldAfter, Initial, CallKey, OneAhead, PublishedOk;
    ReachableKeys(start, moves);
    var w := WorldAfter(start, moves);
    assert CallOk(w, w.procs[p]);
  }

  /** A publish operation is stored as completed only if a publication with that key has committed and
      completed the job. */
  lemma CompletedOperationPublished(start: World, moves: seq<Move>, k: OpKey) returns (p: nat)
    requires Initial(start)
    requires var w := WorldAfter(start, moves); k in w.ops && k.operation == "publish" && w.ops[k].state == OpCompleted
    ensures var w := WorldAfter(start, moves);
      p in w.procs && w.procs[p].Publish? && CallKey(w.id, w.procs[p]) == Some(k)
      && Committed in w.procs[p].trace && Finished in w.procs[p].trace
  {
    hide WorldAfter, Initial, CallKey, CallOk, OneAhead, WorldOk, DiffOk, WellPaced, EndsWith, CopiedPaths;
    ReachableKeys(start, moves);
    ReachableOk(start, moves);
    var w := WorldAfter(start, moves);
    p :| p in w.procs && FinishedFor(w.id, w.procs[p], k);
    StandsAt(w, p);
  }

  /** The converse fails: if recording the result raises after the job was completed, the operation of a
      publication that committed is stored as failed, and every later call with the key raises. */
  lemma FinishedYetFailed(w: World, p: nat, ch: Choice)
    requires p in w.procs && w.procs[p].Publish? && w.procs[p].bp.BRecord? && ch.raises
    requires w.row.status == Completed && CallKey(w.id, w.procs[p]).Some? && IsKey(CallKey(w.id, w.procs[p]).value.key)
    requires CallKey(w.id, w.procs[p]).value in w.ops && w.ops[CallKey(w.id, w.procs[p]).value].state == Started
    ensures var calm := ch.(raises := false); var k := CallKey(w.id, w.procs[p]).value;
      var v := Advance(Advance(Advance(w, Go(p, ch)), Go(p, calm)), Go(p, calm));
      && v.row == w.row && p in v.procs && v.procs[p] == w.procs[p].(bp := BDone)
      && k in v.ops && v.ops[k] == Failure(calm) && KeyedOperations.VerdictOf(v.ops[k], true).Raise?
  {
    hide Advance, StepProc, Affected, Finish, IsKey, CopiedPaths, ClaimsNext;
    Unaffected(w, p);
    var calm, k := ch.(raises := false), CallKey(w.id, w.procs[p]).value;
    NoClaims(w.procs[p]);
    GoesTo(w, p, ch);
    AfterFinish(w, p, ch);
    var a := Advance(w, Go(p, ch));
    Unaffected(a, p);
    NoClaims(a.procs[p]);
    GoesTo(a, p, calm);
    AfterFinish(a, p, calm);
    var b := Advance(a, Go(p, calm));
    NoClaims(b.procs[p]);
    GoesTo(b, p, calm);
    AfterFinish(b, p, calm);
    AffectedKeeps(b, p, Finishes(k, Failure(calm)));
    FailsStarted(b, p, k, calm);
    RowKept(b, p, Finishes(k, Failure(calm)));
  }

  lemma RowKept(w: World, p: nat, e: Effect)
    ensures Affected(w, p, e).row == w.row
  {
    hide Begin, Finish;
  }

  /** The same for a validation that has completed the job. */
  lemma VerdictYetFailed(w: World, p: nat, ch: Choice)
    requires p in w.procs && w.procs[p].Validate? && w.procs[p].vp.VRecord? && ch.raises
    requires w.row.status == Completed && CallKey(w.id, w.procs[p]).Some? && IsKey(CallKey(w.id, w.procs[p]).value.key)
    requires CallKey(w.id, w.procs[p]).value in w.ops && w.ops[CallKey(w.id, w.procs[p]).value].state == Started
    ensures var calm := ch.(raises := false); var k := CallKey(w.id, w.procs[p]).value;
      var v := Advance(Advance(Advance(w, Go(p, ch)), Go(p, calm)), Go(p, calm));
      && v.row == w.row && p in v.procs && v.procs[p] == w.procs[p].(vp := VDone)
      && k in v.ops && v.ops[k] == Failure(calm) && KeyedOperations.VerdictOf(v.ops[k], true).Raise?
  {
    hide Advance, StepProc, Affected, Finish, IsKey, ClaimsNext;
    Unaffected(w, p);
    var calm, k := ch.(raises := false), CallKey(w.id, w.procs[p]).value;
    NoValidateClaims(w.procs[p]);
    GoesTo(w, p, ch);
    AfterVerdict(w, p, ch);
    var a := Advance(w, Go(p, ch));
    Unaffected(a, p);
    NoValidateClaims(a.procs[p]);
    GoesTo(a, p, calm);
    AfterVerdict(a, p, calm);
    var b := Advance(a, Go(p, calm));
    NoValidateClaims(b.procs[p]);
    GoesTo(b, p, calm);
    AfterVerdict(b, p, calm);
    AffectedKeeps(b, p, Finishes(k, Failure(calm)));
    FailsStarted(b, p, k, calm);
  }

  lemma AfterVerdict(w: World, p: nat, ch: Choice)
    requires p in w.procs && w.procs[p].Validate? && w.row.status == Completed
    ensures var o := StepProc(w, w.procs[p], ch); var at := w.procs[p].vp;
      && (at.VRecord? && ch.raises ==> o == Outcome(w.row, w.procs[p].(vp := VFail), NoEffect))
      && (at.VFail? && !ch.raises ==> o == Outcome(w.row, w.procs[p].(vp := VRefuse), NoEffect))
      && (at.VRefuse? && !ch.raises ==> o == Outcome(w.row, w.procs[p].(vp := VDone), Closing(w, w.procs[p], Failure(ch))))
  {
    hide Closing, Genuine, Summarize;
  }

  lemma NoValidateClaims(proc: Proc)
    requires proc.Validate? && !proc.vp.VClaim?
    ensures !ClaimsNext(proc)
  {
  }

  /** The steps of a publication after its last transition, unless it returns. */
  lemma AfterFinish(w: World, p: nat, ch: Choice)
    requires p in w.procs && w.procs[p].Publish? && w.row.status == Completed
    ensures var o := StepProc(w, w.procs[p], ch); var at := w.procs[p].bp;
      && (at.BRecord? && ch.raises ==> o == Outcome(w.row, w.procs[p].(bp := BFail), NoEffect))
      && (at.BFail? && !ch.raises ==> o == Outcome(w.row, w.procs[p].(bp := BRefuse), NoEffect))
      && (at.BRefuse? && !ch.raises ==> o == Outcome(w.row, w.procs[p].(bp := BDone), Closing(w, w.procs[p], Failure(ch))))
  {
    hide CopiedPaths, ExactDiff, Closing;
  }

  lemma NoClaims(proc: Proc)
    requires proc.Publish? && !proc.bp.BClaim?
    ensures !ClaimsNext(proc)
  {
  }

  lemma Unaffected(w: World, p: nat)
    ensures Affected(w, p, NoEffect) == w
  {
  }

  lemma FailsStarted(w: World, p: nat, k: OpKey, ch: Choice)
    requires k in w.ops && w.ops[k].state == Started && IsKey(k.key)
    ensures k in Affected(w, p, Finishes(k, Failure(ch))).ops && Affected(w, p, Finishes(k, Failure(ch))).ops[k] == Failure(ch)
  {
    hide IsKey;
  }
}
