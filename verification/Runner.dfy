/** `LocalRunner._execute_validation_actions` and the summary `execute_validation` makes of its results.
    The adapters, the heartbeat and the cancellation flag are oracles, asked once per position. */
module Runner {
  import opened Text

  /** What an adapter reports; `status` is already case-folded. */
  datatype AdapterResult = AdapterResult(action: Option<string>, status: string, code: Option<int>, out: string, err: string)

  /** One entry of the summary's checks. `runtimeAction` is the mandatory action it answers. */
  datatype Check = Check(action: string, runtimeAction: string, status: string, passed: bool)

  /** The answers of the outside world for each position; `None` is an adapter that raises. */
  datatype Host = Host(cancelBefore: nat -> bool, beatBefore: nat -> bool, perform: nat -> Option<AdapterResult>,
                       beatAfter: nat -> bool, cancelAfter: nat -> bool)

  const PASSING: set<string> := { "passed", "pass", "success" }
  const NOT_PASSING: set<string> := { "skipped", "not-run", "not_run", "failed", "error", "timeout" }
  const RUNTIME_ACTIONS: set<string> := { "install", "lint", "test", "build", "smoke_test" }

  /** `_result_passed`: the status decides if it is a known one, else a zero exit code. */
  predicate ResultPassed(status: string, code: Option<int>) {
    if status in PASSING then true
    else if status in NOT_PASSING then false
    else code == Some(0)
  }

  function NotRun(action: string): Check { Check(action, action, "not-run", false) }

  /** The check of an action that is performed. */
  function Performed(host: Host, i: nat, action: string): Check {
    if action !in RUNTIME_ACTIONS || host.perform(i).None? then NotRun(action)
    else
      var r := host.perform(i).value;
      Check(r.action.GetOr(action), action, r.status, ResultPassed(r.status, r.code))
  }

  /** Nothing raises while position `i` is performed. */
  predicate Works(host: Host, i: nat, action: string) {
    host.beatBefore(i) && (action in RUNTIME_ACTIONS ==> host.perform(i).Some?) && host.beatAfter(i)
  }

  function Output(action: string, text: string): seq<string> {
    if text == "" then [] else ["[" + action + "]\n" + text]
  }

  function OutAt(host: Host, i: nat, action: string): seq<string> {
    if action in RUNTIME_ACTIONS && host.perform(i).Some? then Output(action, host.perform(i).value.out) else []
  }

  function ErrAt(host: Host, i: nat, action: string): seq<string> {
    if action in RUNTIME_ACTIONS && host.perform(i).Some? then Output(action, host.perform(i).value.err) else []
  }

  function OutUpTo(host: Host, actions: seq<string>, n: nat): seq<string>
    requires n <= |actions|
  {
    if n == 0 then [] else OutUpTo(host, actions, n - 1) + OutAt(host, n - 1, actions[n - 1])
  }

  function ErrUpTo(host: Host, actions: seq<string>, n: nat): seq<string>
    requires n <= |actions|
  {
    if n == 0 then [] else ErrUpTo(host, actions, n - 1) + ErrAt(host, n - 1, actions[n - 1])
  }

  /** Position `i` is reached: no earlier poll reported a cancellation. */
  predicate Reached(host: Host, i: nat) {
    forall j :: 0 <= j < i ==> !host.cancelBefore(j) && !host.cancelAfter(j)
  }

  /** The actions before position `n` were performed and no others, and a cancellation, if any, was
      observed right before or right after that point. */
  predicate StoppedAt(host: Host, count: nat, n: nat, cancelled: bool) {
    n <= count &&
    if !cancelled then n == count && Reached(host, n)
    else (n < count && Reached(host, n) && host.cancelBefore(n))
         || (n > 0 && Reached(host, n - 1) && !host.cancelBefore(n - 1) && host.cancelAfter(n - 1))
  }

  datatype Execution = Raised | Executed(checks: seq<Check>, out: seq<string>, err: seq<string>, cancelled: bool)

  /** Where the loop stops, if nothing raises: the number of performed actions, and whether a poll right
      before or right after that point reported a cancellation. */
  function Stop(host: Host, count: nat, i: nat): (r: (nat, bool))
    requires i <= count
    ensures i <= r.0 <= count
    decreases count - i
  {
    if i == count then (count, false)
    else if host.cancelBefore(i) then (i, true)
    else if host.cancelAfter(i) then (i + 1, true)
    else Stop(host, count, i + 1)
  }

  function ChecksFor(host: Host, actions: seq<string>, n: nat): (r: seq<Check>)
    ensures |r| == |actions|
    ensures forall i :: 0 <= i < |r| ==> r[i] == if i < n then Performed(host, i, actions[i]) else NotRun(actions[i])
  {
    seq(|actions|, i requires 0 <= i < |actions| =>
      if i < n then Performed(host, i, actions[i]) else NotRun(actions[i]))
  }

  /** What the loop returns. */
  function Validation(host: Host, actions: seq<string>): Execution {
    var (n, cancelled) := Stop(host, |actions|, 0);
    if forall i :: 0 <= i < n ==> Works(host, i, actions[i])
    then Executed(ChecksFor(host, actions, n), OutUpTo(host, actions, n), ErrUpTo(host, actions, n), cancelled)
    else Raised
  }

  /** The actions before the stop were performed and no others, and a cancellation, if any, was the first
      one a poll could report. */
  lemma {:induction false} StopsAtFirstCancellation(host: Host, count: nat, i: nat)
    requires i <= count && Reached(host, i)
    ensures var (n, cancelled) := Stop(host, count, i); StoppedAt(host, count, n, cancelled)
    decreases count - i
  {
    if i < count && !host.cancelBefore(i) && !host.cancelAfter(i) {
      StopsAtFirstCancellation(host, count, i + 1);
    }
  }

  method MarkNotRun(checks: seq<Check>, actions: seq<string>, from: nat) returns (all: seq<Check>)
    requires from <= |actions|
    ensures |all| == |checks| + (|actions| - from) && all[..|checks|] == checks
    ensures forall i :: |checks| <= i < |all| ==> all[i] == NotRun(actions[from + i - |checks|])
  {
    all := checks;
    for k := from to |actions|
      invariant |all| == |checks| + (k - from) && all[..|checks|] == checks
      invariant forall i :: |checks| <= i < |all| ==> all[i] == NotRun(actions[from + i - |checks|])
    {
      all := all + [NotRun(actions[k])];
    }
  }

  method PerformAction(host: Host, i: nat, action: string) returns (works: bool, check: Check, out: seq<string>, err: seq<string>)
    ensures works == Works(host, i, action)
    ensures works ==> check == Performed(host, i, action)
    ensures works ==> out == OutAt(host, i, action) && err == ErrAt(host, i, action)
  {
    hide ResultPassed, Output, RUNTIME_ACTIONS;
    works, check, out, err := false, NotRun(action), [], [];
    if !host.beatBefore(i) {
      return;
    }
    if action in RUNTIME_ACTIONS {
      var result := host.perform(i);
      if result.None? {
        return;
      }
      var r := result.value;
      check := Check(r.action.GetOr(action), action, r.status, ResultPassed(r.status, r.code));
      out, err := Output(action, r.out), Output(action, r.err);
    }
    works := host.beatAfter(i);
  }

  /** The validation loop: every action has one check in its place, the performed ones first. */
  method ExecuteActions(host: Host, actions: seq<string>) returns (e: Execution)
    ensures e == Validation(host, actions)
  {
    hide Performed, Works, OutAt, ErrAt;
    var checks: seq<Check>, out: seq<string>, err: seq<string> := [], [], [];
    for i := 0 to |actions|
      invariant i == |checks| && Stop(host, |actions|, 0) == Stop(host, |actions|, i)
      invariant forall j :: 0 <= j < i ==> checks[j] == Performed(host, j, actions[j]) && Works(host, j, actions[j])
      invariant out == OutUpTo(host, actions, i) && err == ErrUpTo(host, actions, i)
    {
      if host.cancelBefore(i) {
        checks := MarkNotRun(checks, actions, i);
        assert checks == ChecksFor(host, actions, i);
        return Executed(checks, out, err, true);
      }
      var works, check, outPart, errPart := PerformAction(host, i, actions[i]);
      if !works {
        return Raised;
      }
      checks, out, err := checks + [check], out + outPart, err + errPart;
      if host.cancelAfter(i) {
        checks := MarkNotRun(checks, actions, i + 1);
        assert checks == ChecksFor(host, actions, i + 1);
        return Executed(checks, out, err, true);
      }
    }
    assert checks == ChecksFor(host, actions, |actions|);
    e := Executed(checks, out, err, false);
  }

  // ---------------------------------------------------------------- the summary

  datatype Summary = Summary(passed: bool, mandatory: seq<string>, checks: seq<Check>, cancelled: bool, counts: Counts)

  datatype Counts = Counts(passed: nat, failed: nat, skipped: nat, notRun: nat)

  function CountChecks(checks: seq<Check>): Counts {
    if checks == [] then Counts(0, 0, 0, 0) else
      var c := CountChecks(checks[..|checks| - 1]);
      var last := checks[|checks| - 1];
      Counts(c.passed + if last.passed then 1 else 0,
             c.failed + if last.status == "failed" then 1 else 0,
             c.skipped + if last.status == "skipped" then 1 else 0,
             c.notRun + if last.status == "not-run" || last.status == "not_run" then 1 else 0)
  }

  predicate AllPassed(checks: seq<Check>) { forall i :: 0 <= i < |checks| ==> checks[i].passed }

  function Summarize(actions: seq<string>, e: Execution): Summary
    requires e.Executed?
  {
    Summary(e.checks != [] && !e.cancelled && AllPassed(e.checks), actions, e.checks, e.cancelled, CountChecks(e.checks))
  }

  /** Each mandatory action, and there is at least one, has exactly one check, in its place, and it passed. */
  predicate Proves(s: Summary) {
    && s.passed && s.mandatory != [] && |s.checks| == |s.mandatory|
    && forall i :: 0 <= i < |s.mandatory| ==> s.checks[i].runtimeAction == s.mandatory[i] && s.checks[i].passed
  }

  /** A validation passes exactly if it was not interrupted, there are actions, none was cancelled, and every
      single one of them was performed and passed. */
  lemma PassedExactly(host: Host, actions: seq<string>)
    requires Validation(host, actions).Executed?
    ensures var e := Validation(host, actions);
      && (Summarize(actions, e).passed <==>
            actions != [] && Reached(host, |actions|) && forall i :: 0 <= i < |actions| ==> Performed(host, i, actions[i]).passed)
      && (Summarize(actions, e).passed ==> Proves(Summarize(actions, e)))
  {
    hide CountChecks, ResultPassed, NOT_PASSING, PASSING, RUNTIME_ACTIONS, Stop, Works;
    StopsAtFirstCancellation(host, |actions|, 0);
  }

  /** A check that passed has none of the statuses that the other counters count. */
  predicate Consistent(checks: seq<Check>) {
    forall i :: 0 <= i < |checks| ==> checks[i].passed ==> checks[i].status !in NOT_PASSING
  }

  lemma ChecksConsistent(host: Host, actions: seq<string>, n: nat)
    ensures Consistent(ChecksFor(host, actions, n))
  {
    hide RUNTIME_ACTIONS;
    assert forall t: string :: t in PASSING ==> t !in NOT_PASSING by { PassingApart(); }
  }

  lemma PassingApart()
    ensures PASSING !! NOT_PASSING
  {
    assert |"passed"| == 6 && |"pass"| == 4 && |"success"| == 7;
    assert |"skipped"| == 7 && |"not-run"| == 7 && |"failed"| == 6 && |"error"| == 5;
    assert "passed"[0] == 'p' && "failed"[0] == 'f';
    assert "success"[1] == 'u' && "skipped"[1] == 'k' && "not-run"[1] == 'o' && "timeout"[1] == 'i' && "not_run"[1] == 'o';
  }

  lemma {:induction false} CountsOfConsistent(checks: seq<Check>)
    requires Consistent(checks)
    ensures var c := CountChecks(checks); c.passed + c.failed + c.skipped + c.notRun <= |checks|
    ensures CountChecks(checks).passed == |checks| <==> AllPassed(checks)
  {
    if checks != [] {
      var last := checks[|checks| - 1];
      CountsOfConsistent(checks[..|checks| - 1]);
      assert AllPassed(checks) <==> AllPassed(checks[..|checks| - 1]) && last.passed;
      StatusesApart(last.status);
    }
  }

  /** No check of a validation is counted twice; the passed count reaches the number of mandatory actions
      exactly if each of them passed, and then nothing else is counted. */
  lemma CountsAddUp(host: Host, actions: seq<string>)
    requires Validation(host, actions).Executed?
    ensures var e := Validation(host, actions); var c := Summarize(actions, e).counts;
      && c.passed + c.failed + c.skipped + c.notRun <= |actions|
      && (c.passed == |actions| <==> AllPassed(e.checks))
      && (AllPassed(e.checks) ==> c.failed == c.skipped == c.notRun == 0)
  {
    hide Stop, Works, CountChecks, Performed, AllPassed, Consistent;
    ChecksConsistent(host, actions, Stop(host, |actions|, 0).0);
    CountsOfConsistent(Validation(host, actions).checks);
  }

  lemma StatusesApart(status: string)
    ensures "failed" in NOT_PASSING && "skipped" in NOT_PASSING && "not-run" in NOT_PASSING && "not_run" in NOT_PASSING
    ensures "failed" != "skipped" && "failed" != "not-run" && "failed" != "not_run"
    ensures "skipped" != "not-run" && "skipped" != "not_run"
  {
    assert "failed"[0] == 'f' && "skipped"[0] == 's' && "not-run"[0] == 'n' && "not_run"[0] == 'n';
  }

  // ---------------------------------------------------------------- what the counts and the outputs are

  /** Each count is the number of checks that it is named for. */
  lemma {:induction false} CountsPositions(checks: seq<Check>)
    ensures var c := CountChecks(checks);
      && c.passed == |set i | 0 <= i < |checks| && checks[i].passed|
      && c.failed == |set i | 0 <= i < |checks| && checks[i].status == "failed"|
      && c.skipped == |set i | 0 <= i < |checks| && checks[i].status == "skipped"|
      && c.notRun == |set i | 0 <= i < |checks| && (checks[i].status == "not-run" || checks[i].status == "not_run")|
  {
    if checks != [] {
      CountsPositions(checks[..|checks| - 1]);
      PositionsSnoc(checks, (c: Check) => c.passed);
      PositionsSnoc(checks, (c: Check) => c.status == "failed");
      PositionsSnoc(checks, (c: Check) => c.status == "skipped");
      PositionsSnoc(checks, (c: Check) => c.status == "not-run" || c.status == "not_run");
      SamePositions(checks);
      SamePositions(checks[..|checks| - 1]);
    }
  }

  function Positions(checks: seq<Check>, p: Check -> bool): set<nat> { set i | 0 <= i < |checks| && p(checks[i]) }

  lemma PositionsSnoc(checks: seq<Check>, p: Check -> bool)
    requires checks != []
    ensures var n := |checks| - 1; |Positions(checks, p)| == |Positions(checks[..n], p)| + if p(checks[n]) then 1 else 0
  {
    var n := |checks| - 1;
    assert Positions(checks, p) == Positions(checks[..n], p) + if p(checks[n]) then {n} else {};
  }

  lemma SamePositions(checks: seq<Check>)
    ensures Positions(checks, (c: Check) => c.passed) == set i | 0 <= i < |checks| && checks[i].passed
    ensures Positions(checks, (c: Check) => c.status == "failed") == set i | 0 <= i < |checks| && checks[i].status == "failed"
    ensures Positions(checks, (c: Check) => c.status == "skipped") == set i | 0 <= i < |checks| && checks[i].status == "skipped"
    ensures Positions(checks, (c: Check) => c.status == "not-run" || c.status == "not_run")
         == set i | 0 <= i < |checks| && (checks[i].status == "not-run" || checks[i].status == "not_run")
  {
  }

  /** The adapter reported this at position `i`. */
  predicate Reports(host: Host, actions: seq<string>, i: nat, r: AdapterResult)
    requires i < |actions|
  {
    actions[i] in RUNTIME_ACTIONS && host.perform(i) == Some(r)
  }

  /** The actions that some adapter can perform. */
  predicate Runnable(action: string) {
    action == "install" || action == "lint" || action == "test" || action == "build" || action == "smoke_test"
  }

  predicate SaysPassed(status: string) { status == "passed" || status == "pass" || status == "success" }

  predicate SaysNotPassed(status: string) {
    status == "skipped" || status == "not-run" || status == "not_run" || status == "failed" || status == "error" || status == "timeout"
  }

  /** What one check of a validation means, given how many actions were performed. */
  predicate CheckMeans(host: Host, actions: seq<string>, n: nat, i: nat, c: Check)
    requires i < |actions|
  {
    && c.runtimeAction == actions[i]
    && (if i < n && Runnable(actions[i]) && host.perform(i).Some? then
          var r := host.perform(i).value;
          && c.status == r.status && c.action == (if r.action.Some? then r.action.value else actions[i])
          && (SaysPassed(r.status) ==> c.passed) && (SaysNotPassed(r.status) ==> !c.passed)
          && (!SaysPassed(r.status) && !SaysNotPassed(r.status) ==> (c.passed <==> r.code == Some(0)))
        else c.status == "not-run" && c.action == actions[i] && !c.passed)
  }

  lemma NamedSets(t: string)
    ensures t in RUNTIME_ACTIONS <==> Runnable(t)
    ensures t in PASSING <==> SaysPassed(t)
    ensures t in NOT_PASSING <==> SaysNotPassed(t)
  {
  }

  /** The part that an adapter's text becomes: under a heading, if there is any. */
  function Headed(action: string, text: string): string { "[" + action + "]\n" + text }

  /** The two outputs hold, in order, the texts that the performed actions wrote to each. */
  ghost predicate OutputsMean(host: Host, actions: seq<string>, n: nat, out: seq<string>, err: seq<string>)
    requires n <= |actions|
  {
    && (forall t :: t in out <==> exists i :: 0 <= i < n && WroteOut(host, actions, i, t))
    && (forall t :: t in err <==> exists i :: 0 <= i < n && WroteErr(host, actions, i, t))
  }

  predicate WroteOut(host: Host, actions: seq<string>, i: nat, t: string)
    requires i < |actions|
  {
    actions[i] in RUNTIME_ACTIONS && host.perform(i).Some? && host.perform(i).value.out != ""
    && t == Headed(actions[i], host.perform(i).value.out)
  }

  predicate WroteErr(host: Host, actions: seq<string>, i: nat, t: string)
    requires i < |actions|
  {
    actions[i] in RUNTIME_ACTIONS && host.perform(i).Some? && host.perform(i).value.err != ""
    && t == Headed(actions[i], host.perform(i).value.err)
  }

  lemma WrittenAt(host: Host, actions: seq<string>, i: nat, t: string)
    requires i < |actions|
    ensures t in OutAt(host, i, actions[i]) <==> WroteOut(host, actions, i, t)
    ensures t in ErrAt(host, i, actions[i]) <==> WroteErr(host, actions, i, t)
  {
    hide RUNTIME_ACTIONS, Headed, Output;
    HeadedOutput(actions[i], t);
  }

  lemma {:induction false} OutputOf(host: Host, actions: seq<string>, n: nat, t: string)
    requires n <= |actions|
    ensures t in OutUpTo(host, actions, n) <==> exists i :: 0 <= i < n && WroteOut(host, actions, i, t)
  {
    hide OutAt, WroteOut;
    if n > 0 {
      OutputOf(host, actions, n - 1, t);
      WrittenAt(host, actions, n - 1, t);
    }
  }

  lemma {:induction false} ErrorOf(host: Host, actions: seq<string>, n: nat, t: string)
    requires n <= |actions|
    ensures t in ErrUpTo(host, actions, n) <==> exists i :: 0 <= i < n && WroteErr(host, actions, i, t)
  {
    hide ErrAt, WroteErr;
    if n > 0 {
      ErrorOf(host, actions, n - 1, t);
      WrittenAt(host, actions, n - 1, t);
    }
  }

  lemma OutputsOf(host: Host, actions: seq<string>, n: nat)
    requires n <= |actions|
    ensures OutputsMean(host, actions, n, OutUpTo(host, actions, n), ErrUpTo(host, actions, n))
  {
    hide OutUpTo, ErrUpTo, WroteOut, WroteErr;
    forall t ensures t in OutUpTo(host, actions, n) <==> exists i :: 0 <= i < n && WroteOut(host, actions, i, t) {
      OutputOf(host, actions, n, t);
    }
    forall t ensures t in ErrUpTo(host, actions, n) <==> exists i :: 0 <= i < n && WroteErr(host, actions, i, t) {
      ErrorOf(host, actions, n, t);
    }
  }

  lemma HeadedOutput(action: string, t: string)
    ensures forall text :: t in Output(action, text) <==> text != "" && t == Headed(action, text)
  {
  }

  ghost predicate Means(host: Host, actions: seq<string>, n: nat, e: Execution)
    requires n <= |actions| && e.Executed? && |e.checks| == |actions|
  {
    && (forall i :: 0 <= i < n ==> Works(host, i, actions[i]))
    && (forall i :: 0 <= i < |actions| ==> CheckMeans(host, actions, n, i, e.checks[i]))
    && OutputsMean(host, actions, n, e.out, e.err)
  }

  /** What a validation that did not raise reports: for every action, by its position, what its adapter said if
      it was performed and that it was not run if not, and what the performed ones wrote. */
  lemma ExecutionMeans(host: Host, actions: seq<string>)
    requires Validation(host, actions).Executed?
    ensures var e := Validation(host, actions);
      |e.checks| == |actions| && exists n :: StoppedAt(host, |actions|, n, e.cancelled) && Means(host, actions, n, e)
  {
    hide Stop, OutputsMean, StoppedAt, PASSING, NOT_PASSING, RUNTIME_ACTIONS, Works, Runnable, SaysPassed, SaysNotPassed;
    var (n, cancelled) := Stop(host, |actions|, 0);
    StopsAtFirstCancellation(host, |actions|, 0);
    OutputsOf(host, actions, n);
    PassingNames();
    var e := Validation(host, actions);
    forall i | 0 <= i < |actions| ensures CheckMeans(host, actions, n, i, e.checks[i]) {
      NamedSets(actions[i]);
      if host.perform(i).Some? { NamedSets(host.perform(i).value.status); }
    }
  }

  /** Something raises while position `i` is performed: a heartbeat, or an adapter that can perform the action. */
  predicate Stumbles(host: Host, i: nat, action: string) {
    !host.beatBefore(i) || (Runnable(action) && host.perform(i).None?) || !host.beatAfter(i)
  }

  lemma {:induction false} OneStop(host: Host, count: nat, n: nat, c: bool, m: nat, d: bool)
    requires StoppedAt(host, count, n, c) && StoppedAt(host, count, m, d)
    ensures n == m
  {
  }

  /** The loop raises exactly if something raised before it would have stopped. */
  lemma RaisesExactly(host: Host, actions: seq<string>, n: nat, cancelled: bool)
    requires StoppedAt(host, |actions|, n, cancelled)
    ensures Validation(host, actions).Raised? <==> exists i :: 0 <= i < n && Stumbles(host, i, actions[i])
  {
    hide Stop, StoppedAt, RUNTIME_ACTIONS, Runnable;
    var (m, d) := Stop(host, |actions|, 0);
    StopsAtFirstCancellation(host, |actions|, 0);
    OneStop(host, |actions|, n, cancelled, m, d);
    forall i | 0 <= i < n ensures Works(host, i, actions[i]) <==> !Stumbles(host, i, actions[i]) { NamedSets(actions[i]); }
  }

  lemma PassingNames()
    ensures forall t: string :: t in PASSING ==> t !in NOT_PASSING
  {
    PassingApart();
  }
}
