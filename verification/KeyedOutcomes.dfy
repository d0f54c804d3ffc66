/** What is stored about a keyed call that did its work: exactly when completed, failed, or still started. */
module KeyedOutcomes {
  import opened Text
  import opened Runner
  import opened Jobs
  import opened Runs
  import opened Workspaces
  import opened ControlPlane
  import opened ControlPlaneProofs
  import opened Guarantees
  import opened KeyedCalls

  /** The call has done its work: the verdict of the validation is stored, or the publication has finished. */
  predicate Ended(proc: Proc) {
    if proc.Prepare? then false else if proc.Validate? then proc.stored else Finished in proc.trace
  }

  /** It records what it did and completes its operation. */
  predicate Recording(proc: Proc) {
    if proc.Prepare? then false
    else if proc.Validate? then proc.vp.VRecord? || proc.vp.VComplete? else proc.bp.BRecord? || proc.bp.BComplete?
  }

  predicate Handling(proc: Proc) {
    if proc.Prepare? then false
    else if proc.Validate? then proc.vp.VFail? || proc.vp.VFailing? || proc.vp.VRefuse?
    else proc.bp.BFail? || proc.bp.BFailing? || proc.bp.BRefuse?
  }

  /** Its failure handler is about to fail the operation. */
  predicate Refusing(proc: Proc) {
    Ended(proc) && if proc.Validate? then proc.vp.VRefuse? else proc.Publish? && proc.bp.BRefuse?
  }

  predicate Returned(proc: Proc) {
    if proc.Prepare? then false else if proc.Validate? then proc.vp.VDone? else proc.bp.BDone?
  }

  /** The move is a step of call `p` that raises while it records what it did. */
  predicate RecordingRaises(w: World, m: Move, p: nat) {
    m.Go? && m.p == p && p in w.procs && Recording(w.procs[p]) && m.ch.raises
  }

  /** The move is a step of call `p` that raises, unseen, while its handler fails the operation. */
  predicate RefusalRaises(w: World, m: Move, p: nat) {
    m.Go? && m.p == p && p in w.procs && Refusing(w.procs[p]) && m.ch.raises
  }

  // ---------------------------------------------------------------- one step

  lemma EndedFacts(w: World, p: nat)
    requires WorldOk(w) && p in w.procs
    ensures var proc := w.procs[p];
      && (Recording(proc) ==> Ended(proc))
      && (Ended(proc) ==> proc.lease.Some? && (Recording(proc) || Handling(proc) || Returned(proc)))
  {
    hide WorldOk, DiffOk, WellPaced, EndsWith, CopiedPaths, Holding, JustClaimed, SummaryOk;
    StandsAt(w, p);
  }

  lemma EndedCallFacts(w: World, p: nat)
    requires WorldOk(w) && KeysOk(w) && p in w.procs && Ended(w.procs[p]) && CallKey(w.id, w.procs[p]).Some?
    ensures var k := CallKey(w.id, w.procs[p]).value;
      WentAhead(w.procs[p]) && k in w.ops && IsKey(k.key) && (!Returned(w.procs[p]) ==> w.ops[k].state == Started)
  {
    hide WorldOk, OneAhead, PublishedOk, IsKey, CallKey;
    EndedFacts(w, p);
    assert CallOk(w, w.procs[p]);
  }

  lemma StepStaysEnded(w: World, proc: Proc, ch: Choice)
    ensures var next := StepProc(w, proc, ch).proc;
      && (Ended(proc) ==> Ended(next)) && CallKey(w.id, next) == CallKey(w.id, proc)
      && (proc.Prepare? <==> next.Prepare?) && (proc.Validate? <==> next.Validate?)
  {
    hide StepPrepare, StepValidate, StepPublish;
  }

  lemma EndedStays(w: World, m: Move, p: nat)
    requires p in w.procs
    ensures var u := Advance(w, m);
      p in u.procs && (Ended(w.procs[p]) ==> Ended(u.procs[p])) && CallKey(u.id, u.procs[p]) == CallKey(w.id, w.procs[p])
  {
    hide Advance, Ended, CallKey, StepProc;
    if m.Go? && Enabled(w, m.p, m.ch) {
      GoLands(w, m.p, m.ch);
      StepStaysEnded(w, w.procs[m.p], m.ch);
    } else {
      OthersLeaveCalls(w, m);
    }
  }

  lemma GoLands(w: World, p: nat, ch: Choice)
    requires Enabled(w, p, ch)
    ensures var o := StepProc(w, w.procs[p], ch); var u := Advance(w, Go(p, ch));
      u.procs == w.procs[p := o.proc] && u.ops == Affected(w, p, o.effect).ops && u.id == w.id
  {
    hide StepProc, Affected, ClaimsNext, Advance;
    GoesTo(w, p, ch);
    AffectedKeeps(w, p, StepProc(w, w.procs[p], ch).effect);
  }

  /** A call ends by the step after which it records. */
  lemma StepEnds(w: World, proc: Proc, ch: Choice)
    requires !Ended(proc)
    ensures Ended(StepProc(w, proc, ch).proc) ==> Recording(StepProc(w, proc, ch).proc)
  {
    hide StepPrepare, StepValidate, StepPublish;
    if proc.Validate? { ValidateEnds(w, proc, ch); } else if proc.Publish? { PublishEnds(w, proc, ch); }
  }

  lemma ValidateEnds(w: World, proc: Proc, ch: Choice)
    requires proc.Validate? && !proc.stored
    ensures StepValidate(w, proc, ch).proc.stored ==> StepValidate(w, proc, ch).proc.vp.VRecord?
  {
    hide Claiming, Leased, Owned, Beating, Genuine, Summarize, Answered, CanComplete, Closing;
  }

  lemma PublishEnds(w: World, proc: Proc, ch: Choice)
    requires proc.Publish? && Finished !in proc.trace
    ensures Finished in StepPublish(w, proc, ch).proc.trace ==> StepPublish(w, proc, ch).proc.bp.BRecord?
  {
    hide Claiming, Leased, Owned, Beating, ExactDiff, SourceStale, Answered, CanComplete, Closing, CopiedPaths;
  }

  lemma EndsRecording(w: World, m: Move, p: nat)
    requires p in w.procs ==> !Ended(w.procs[p])
    ensures var u := Advance(w, m); p in u.procs && Ended(u.procs[p]) ==> p in w.procs && Recording(u.procs[p])
  {
    hide Advance, StepProc, Recording;
    if m.Go? && Enabled(w, m.p, m.ch) {
      GoLands(w, m.p, m.ch);
      if m.p == p { StepEnds(w, w.procs[p], m.ch); }
    } else {
      OthersLeaveCalls(w, m);
    }
  }

  // ---------------------------------------------------------------- what is stored

  /** What is stored of an ended call: started while it records or handles a failure; once it has returned,
      completed if recording did not raise, failed if it did, and still started if failing it raised as well. */
  predicate Outcome(state: OpState, proc: Proc, raised: bool, lost: bool) {
    if Recording(proc) then !raised && !lost && state == Started
    else if Handling(proc) then raised && !lost && state == Started
    else Returned(proc) && state == if !raised then OpCompleted else if !lost then OpFailed else Started
  }

  /** With its operation started and a valid key, nothing but an exception keeps a call from completing. */
  lemma CompletesUnlessRaises(w: World, p: nat, proc: Proc, ch: Choice, k: OpKey)
    requires CallKey(w.id, proc) == Some(k) && k in w.ops && w.ops[k].state == Started && IsKey(k.key)
    ensures CanComplete(w, proc, ch) <==> !ch.raises
    ensures Closing(w, proc, Success(ch)) == Finishes(k, Success(ch)) && Closing(w, proc, Failure(ch)) == Finishes(k, Failure(ch))
    ensures var ops := Affected(w, p, Finishes(k, Success(ch))).ops; k in ops && ops[k] == Success(ch)
    ensures var ops := Affected(w, p, Finishes(k, Failure(ch))).ops; k in ops && ops[k] == Failure(ch)
  {
    hide IsKey;
  }

  lemma ValidateOutcome(w: World, p: nat, proc: Proc, ch: Choice, k: OpKey, raised: bool, lost: bool)
    requires proc.Validate? && proc.stored && CallKey(w.id, proc) == Some(k) && k in w.ops && IsKey(k.key)
    requires Outcome(w.ops[k].state, proc, raised, lost)
    ensures var o := StepValidate(w, proc, ch); var ops := Affected(w, p, o.effect).ops;
      k in ops && Outcome(ops[k].state, o.proc, raised || (Recording(proc) && ch.raises), lost || (Refusing(proc) && ch.raises))
  {
    hide Claiming, Leased, Owned, Beating, Genuine, Summarize, Answered, CanComplete, Closing, Finish, Begin, IsKey, CallKey;
    if w.ops[k].state == Started { CompletesUnlessRaises(w, p, proc, ch, k); }
  }

  lemma PublishOutcome(w: World, p: nat, proc: Proc, ch: Choice, k: OpKey, raised: bool, lost: bool)
    requires proc.Publish? && Finished in proc.trace && CallKey(w.id, proc) == Some(k) && k in w.ops && IsKey(k.key)
    requires Outcome(w.ops[k].state, proc, raised, lost)
    ensures var o := StepPublish(w, proc, ch); var ops := Affected(w, p, o.effect).ops;
      k in ops && Outcome(ops[k].state, o.proc, raised || (Recording(proc) && ch.raises), lost || (Refusing(proc) && ch.raises))
  {
    hide Claiming, Leased, Owned, Beating, ExactDiff, SourceStale, Answered, CanComplete, Closing, Finish, Begin, IsKey, CallKey,
      CopiedPaths;
    if w.ops[k].state == Started { CompletesUnlessRaises(w, p, proc, ch, k); }
  }

  /** One step of anybody. */
  lemma OutcomeStep(w: World, m: Move, p: nat, raised: bool, lost: bool)
    requires WorldOk(w) && KeysOk(w) && p in w.procs && Ended(w.procs[p]) && CallKey(w.id, w.procs[p]).Some?
    requires var k := CallKey(w.id, w.procs[p]).value; k in w.ops && Outcome(w.ops[k].state, w.procs[p], raised, lost)
    ensures var u := Advance(w, m); var k := CallKey(w.id, w.procs[p]).value;
      p in u.procs && k in u.ops
      && Outcome(u.ops[k].state, u.procs[p], raised || RecordingRaises(w, m, p), lost || RefusalRaises(w, m, p))
  {
    hide WorldOk, KeysOk, Advance, StepPrepare, StepValidate, StepPublish, Outcome, CallKey, IsKey, Affected;
    EndedCallFacts(w, p);
    var k := CallKey(w.id, w.procs[p]).value;
    if m.Go? && m.p == p && Enabled(w, p, m.ch) {
      GoLands(w, p, m.ch);
      if w.procs[p].Validate? {
        ValidateOutcome(w, p, w.procs[p], m.ch, k, raised, lost);
      } else {
        PublishOutcome(w, p, w.procs[p], m.ch, k, raised, lost);
      }
    } else {
      EndedEnabled(w, p);
      OthersKeepOutcome(w, m, p);
    }
  }

  lemma EndedEnabled(w: World, p: nat)
    requires WorldOk(w) && p in w.procs && Ended(w.procs[p])
    ensures forall ch :: Enabled(w, p, ch)
  {
    hide WorldOk, Recording, Ended;
    EndedFacts(w, p);
    RecordingNoClaim(w.procs[p]);
  }

  lemma RecordingNoClaim(proc: Proc)
    ensures Recording(proc) || Handling(proc) || Returned(proc) ==> !ClaimsNext(proc)
  {
  }

  lemma OthersKeepOutcome(w: World, m: Move, p: nat)
    requires KeysOk(w) && p in w.procs && WentAhead(w.procs[p]) && CallKey(w.id, w.procs[p]).Some?
    requires m.Go? ==> m.p != p || !Enabled(w, p, m.ch)
    ensures var u := Advance(w, m); var k := CallKey(w.id, w.procs[p]).value;
      p in u.procs && u.procs[p] == w.procs[p] && k in w.ops && k in u.ops && u.ops[k] == w.ops[k]
  {
    hide Advance, CallKey, StepProc, Affected, CallOk, PublishedOk, ClaimsNext, StepOk, OneAhead;
    assert CallOk(w, w.procs[p]);
    if m.Go? && Enabled(w, m.p, m.ch) {
      GoLands(w, m.p, m.ch);
      assert CallOk(w, w.procs[m.p]);
      CallKeys(w, m.p, m.ch);
      OthersOpSame(w, m.p, p, StepProc(w, w.procs[m.p], m.ch));
    } else {
      OthersLeaveCalls(w, m);
      GoneAheadStored(w, w.procs[p]);
    }
  }

  lemma GoneAheadStored(w: World, proc: Proc)
    requires CallOk(w, proc) && CallKey(w.id, proc).Some? && WentAhead(proc)
    ensures CallKey(w.id, proc).value in w.ops
  {
    hide CallKey, IsKey;
  }

  // ---------------------------------------------------------------- whole runs

  /** Among the first `n` moves of the run is one by which call `p` raised while it recorded what it did. */
  ghost predicate RaisedBefore(start: World, moves: seq<Move>, n: nat, p: nat)
    requires n <= |moves|
  {
    exists i :: 0 <= i < n && RecordingRaises(WorldAfter(start, moves[..i]), moves[i], p)
  }

  /** Among them is one by which its handler raised while it failed the operation. */
  ghost predicate LostBefore(start: World, moves: seq<Move>, n: nat, p: nat)
    requires n <= |moves|
  {
    exists i :: 0 <= i < n && RefusalRaises(WorldAfter(start, moves[..i]), moves[i], p)
  }

  lemma {:induction false} EndedStaysOn(start: World, moves: seq<Move>, a: nat, b: nat, p: nat)
    requires a <= b <= |moves| && p in WorldAfter(start, moves[..a]).procs && Ended(WorldAfter(start, moves[..a]).procs[p])
    ensures p in WorldAfter(start, moves[..b]).procs && Ended(WorldAfter(start, moves[..b]).procs[p])
    decreases b - a
  {
    hide WorldAfter, Advance, Ended;
    if a < b {
      EndedStaysOn(start, moves, a, b - 1, p);
      AfterSnoc(start, moves, b - 1);
      EndedStays(WorldAfter(start, moves[..b - 1]), moves[b - 1], p);
    }
  }

  /** Before a call ends it does not record and its handler has nothing to lose. */
  lemma NothingBefore(start: World, moves: seq<Move>, n: nat, p: nat)
    requires Initial(start) && n < |moves|
    requires p in WorldAfter(start, moves[..n]).procs ==> !Ended(WorldAfter(start, moves[..n]).procs[p])
    ensures !RaisedBefore(start, moves, n + 1, p) && !LostBefore(start, moves, n + 1, p)
  {
    hide WorldAfter, Initial, WorldOk, Ended, Recording;
    forall i | 0 <= i < n + 1
      ensures !RecordingRaises(WorldAfter(start, moves[..i]), moves[i], p)
      ensures !RefusalRaises(WorldAfter(start, moves[..i]), moves[i], p)
    {
      var w := WorldAfter(start, moves[..i]);
      if p in w.procs {
        ReachableOk(start, moves[..i]);
        EndedFacts(w, p);
        if Ended(w.procs[p]) { EndedStaysOn(start, moves, i, n, p); }
      }
    }
  }

  lemma {:induction false} OutcomeAt(start: World, moves: seq<Move>, n: nat, p: nat)
    requires Initial(start) && n <= |moves|
    requires var w := WorldAfter(start, moves[..n]); p in w.procs && Ended(w.procs[p]) && CallKey(w.id, w.procs[p]).Some?
    ensures var w := WorldAfter(start, moves[..n]); var k := CallKey(w.id, w.procs[p]).value;
      k in w.ops
      && Outcome(w.ops[k].state, w.procs[p], RaisedBefore(start, moves, n, p), LostBefore(start, moves, n, p))
    decreases n
  {
    hide WorldAfter, Advance, Initial, WorldOk, KeysOk, CallKey, Ended, Recording, Handling, Returned, RecordingRaises, RefusalRaises,
      Outcome;
    if n == 0 {
      NothingEndedAtStart(start, moves, p);
    } else {
      var w, u := WorldAfter(start, moves[..n - 1]), WorldAfter(start, moves[..n]);
      AfterSnoc(start, moves, n - 1);
      ReachableOk(start, moves[..n - 1]);
      ReachableKeys(start, moves[..n - 1]);
      if p in w.procs && Ended(w.procs[p]) {
        EndedStays(w, moves[n - 1], p);
        OutcomeAt(start, moves, n - 1, p);
        OutcomeStep(w, moves[n - 1], p, RaisedBefore(start, moves, n - 1, p), LostBefore(start, moves, n - 1, p));
        BeforeSnoc(start, moves, n, p);
      } else {
        EndsRecording(w, moves[n - 1], p);
        NothingBefore(start, moves, n - 1, p);
        ReachableOk(start, moves[..n]);
        ReachableKeys(start, moves[..n]);
        EndedCallFacts(u, p);
        RecordingStarted(u, p);
      }
    }
  }

  lemma BeforeSnoc(start: World, moves: seq<Move>, n: nat, p: nat)
    requires 0 < n <= |moves|
    ensures var w, m := WorldAfter(start, moves[..n - 1]), moves[n - 1];
      && (RaisedBefore(start, moves, n, p) <==> RaisedBefore(start, moves, n - 1, p) || RecordingRaises(w, m, p))
      && (LostBefore(start, moves, n, p) <==> LostBefore(start, moves, n - 1, p) || RefusalRaises(w, m, p))
  {
    hide WorldAfter, RecordingRaises, RefusalRaises;
  }

  lemma RecordingStarted(w: World, p: nat)
    requires p in w.procs && Recording(w.procs[p]) && CallKey(w.id, w.procs[p]).Some?
    requires var k := CallKey(w.id, w.procs[p]).value;
      k in w.ops && (!Returned(w.procs[p]) ==> w.ops[k].state == Started)
    ensures Outcome(w.ops[CallKey(w.id, w.procs[p]).value].state, w.procs[p], false, false)
  {
    hide CallKey;
  }

  lemma NothingEndedAtStart(start: World, moves: seq<Move>, p: nat)
    requires Initial(start)
    ensures var w := WorldAfter(start, moves[..0]); p in w.procs ==> !Ended(w.procs[p])
  {
    assert moves[..0] == [];
  }

  /** A keyed call that did its work and returned left its operation completed exactly if it did not raise
      while it recorded that; if it did, failed, unless its handler raised as well, and then still started.
      For every interleaving, of a validate call that stored its verdict and of a publish call that committed
      and completed the job. */
  lemma KeyedCallOutcome(start: World, moves: seq<Move>, p: nat)
    requires Initial(start)
    requires var w := WorldAfter(start, moves);
      p in w.procs && CallKey(w.id, w.procs[p]).Some? && Ended(w.procs[p]) && Returned(w.procs[p])
    ensures var w := WorldAfter(start, moves); var k := CallKey(w.id, w.procs[p]).value;
      && k in w.ops
      && (w.ops[k].state == OpCompleted <==> !RaisedBefore(start, moves, |moves|, p))
      && (w.ops[k].state == OpFailed <==> RaisedBefore(start, moves, |moves|, p) && !LostBefore(start, moves, |moves|, p))
      && (w.ops[k].state == Started <==> RaisedBefore(start, moves, |moves|, p) && LostBefore(start, moves, |moves|, p))
  {
    hide WorldAfter, Initial, CallKey, Ended, RaisedBefore, LostBefore, Recording, Handling;
    assert moves[..|moves|] == moves;
    OutcomeAt(start, moves, |moves|, p);
    PointsApart(WorldAfter(start, moves).procs[p]);
  }

  lemma PointsApart(proc: Proc)
    ensures Returned(proc) ==> !Recording(proc) && !Handling(proc)
  {
  }
}
