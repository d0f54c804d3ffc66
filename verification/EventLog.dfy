/** The event log is a faithful history: reading a job's events reconstructs its row. */
module EventLog {
  import opened Text
  import opened Jobs
  import opened Runs
  import opened Leases

  /** What a reader of a job's events knows after them. `broken` means the statuses do not connect. */
  datatype Reading = Reading(status: Option<Status>, attempt: nat, cancels: nat, expires: Option<Time>, broken: bool)

  const UNREAD := Reading(None, 0, 0, None, false)

  /** The event connects to the status read so far along an edge of the transition table. */
  predicate Connects(status: Option<Status>, e: Event) {
    e.to.Some? &&
    if status.None? then e.from.None?
    else e.from == status && CanMove(status.value, e.to.value)
  }

  function ReadOne(r: Reading, e: Event): Reading {
    Reading(
      if e.to.Some? then e.to else r.status,
      r.attempt + if e.kind.JobClaimed? then 1 else 0,
      r.cancels + if e.kind.CancellationRequested? then 1 else 0,
      if e.kind.JobClaimed? || e.kind.JobHeartbeat? then e.expires
      else if e.to.Some? && !Guarded(e.to.value) then None else r.expires,
      r.broken || ((e.from.Some? || e.to.Some?) && !Connects(r.status, e)))
  }

  function Read(events: seq<Event>): Reading {
    if events == [] then UNREAD else ReadOne(Read(events[..|events| - 1]), events[|events| - 1])
  }

  /** The log of a job tells its status, its attempts, its cancellation flag and its lease expiry. */
  predicate Tells(r: Reading, row: Row) {
    r == Reading(Some(row.status), row.attempt, if row.cancel then 1 else 0, row.expires, false)
  }

  /** A recorded event that leaves the history faithful: no status, no claim, no cancellation, and a
      heartbeat only with the expiry that already stands. */
  predicate Harmless(row: Row, e: Event) {
    e.from.None? && e.to.None? && !e.kind.JobClaimed? && !e.kind.CancellationRequested?
    && (e.kind.JobHeartbeat? ==> e.expires == row.expires)
  }

  /** `record_event` keeps a faithful history faithful exactly if the event is harmless. */
  lemma RecordedEventFaithful(r: Reading, row: Row, e: Event)
    requires Tells(r, row)
    ensures Tells(ReadOne(r, e), row) <==> Harmless(row, e)
  {
  }

  /** The control plane records only events of its own kinds and without statuses. */
  predicate Discreet(c: Call) {
    Sane(c) && (c.EventCall? ==> c.e.kind.Other? && c.e.from.None? && c.e.to.None?)
  }

  predicate AllDiscreet(calls: seq<Call>) { forall i :: 0 <= i < |calls| ==> Discreet(calls[i]) }

  function ReadOn(r: Reading, events: seq<Event>): Reading {
    if events == [] then r else ReadOne(ReadOn(r, events[..|events| - 1]), events[|events| - 1])
  }

  lemma {:induction false} ReadAppend(past: seq<Event>, added: seq<Event>)
    ensures Read(past + added) == ReadOn(Read(past), added)
  {
    if added == [] {
      assert past + added == past;
    } else {
      var n := |added| - 1;
      ReadAppend(past, added[..n]);
      assert (past + added)[..|past + added| - 1] == past + added[..n];
    }
  }

  lemma {:induction false} BookkeepingSilent(r: Reading, events: seq<Event>)
    requires forall i :: 0 <= i < |events| ==> Bookkeeping(events[i])
    ensures ReadOn(r, events) == r
  {
    if events != [] { BookkeepingSilent(r, events[..|events| - 1]); }
  }

  lemma ReadOnOne(r: Reading, e: Event)
    ensures ReadOn(r, [e]) == ReadOne(r, e)
  {
    assert [e][..0] == [];
    assert ReadOn(r, []) == r;
  }

  lemma ReadOnTwo(r: Reading, e: Event, f: Event)
    ensures ReadOn(r, [e] + [f]) == ReadOne(ReadOne(r, e), f)
  {
    assert ([e] + [f])[..1] == [e];
    ReadOnOne(r, e);
  }

  lemma DecisionTold(c: Call, row: Row, r: Reading)
    requires Tells(r, row) && LeaseWhole(row) && Discreet(c) && Decide(c, row).Change?
    ensures Tells(ReadOn(r, Decide(c, row).events), Decide(c, row).row)
  {
    hide IsLease, IsWorkerId, ReadOn, Noted, LeaseError;
    if c.CancelCall? {
      CancelTold(row, r);
    } else {
      var events := Decide(c, row).events;
      if |events| == 1 {
        assert events == [events[0]];
        ReadOnOne(r, events[0]);
        OneEventTold(c, row, r);
      } else {
        assert ReadOn(r, []) == r by { BookkeepingSilent(r, []); }
        NoEventTold(c, row);
      }
    }
  }

  lemma NoEventTold(c: Call, row: Row)
    requires Decide(c, row).Change? && |Decide(c, row).events| != 1 && !c.CancelCall?
    ensures Decide(c, row).events == []
    ensures forall r :: Tells(r, row) ==> Tells(r, Decide(c, row).row)
  {
    hide IsLease, IsWorkerId, Noted, LeaseError;
  }

  lemma OneEventTold(c: Call, row: Row, r: Reading)
    requires Tells(r, row) && LeaseWhole(row) && Discreet(c) && Decide(c, row).Change? && !c.CancelCall?
    requires |Decide(c, row).events| == 1
    ensures Tells(ReadOne(r, Decide(c, row).events[0]), Decide(c, row).row)
  {
    hide IsLease, IsWorkerId, LeaseError;
  }

  lemma CancelTold(row: Row, r: Reading)
    requires Tells(r, row) && LeaseWhole(row) && CancelRow(row).Change?
    ensures Tells(ReadOn(r, CancelRow(row).events), CancelRow(row).row)
  {
    hide ReadOn;
    var flag := Event(CancellationRequested, None, None, None);
    var stop := Event(StatusTransition, Some(row.status), Some(Cancelled), None);
    BookkeepingSilent(r, []);
    ReadOnOne(r, flag);
    ReadOnOne(r, stop);
    ReadOnTwo(r, flag, stop);
    assert [] + [stop] == [stop];
  }

  lemma StepTold(c: Call, j: string, before: Row, after: Row, added: seq<Event>, past: seq<Event>)
    requires RowStep(c, j, before, after, added) && LeaseWhole(before) && Discreet(c) && Tells(Read(past), before)
    ensures Tells(Read(past + added), after)
  {
    hide Decide, Tells, LeaseWhole, Discreet;
    ReadAppend(past, added);
    if Names(c, j) && Decide(c, before) == Change(after, added) {
      DecisionTold(c, before, Read(past));
    } else {
      BookkeepingSilent(Read(past), added);
    }
  }

  /** Events and operations belong to existing jobs. */
  predicate Closed(s: State) {
    (forall i :: 0 <= i < |s.log| ==> s.log[i].job in s.jobs) && forall k :: k in s.ops ==> k.job in s.jobs
  }

  lemma StepClosed(s: State, c: Call)
    requires Closed(s)
    ensures Closed(Perform(s, c).0)
  {
    hide IsWorkerId, IsLease, IsKey, IsJobId, IsOperation, ClaimRow, HeartbeatRow, TransitionRow, RecoverRow, CancelRow,
      UpdateRow, FindKeyed;
  }

  lemma {:induction false} AlwaysClosed(calls: seq<Call>)
    ensures Closed(After(calls))
  {
    hide Perform, Closed;
    if calls == [] {
      EmptyClosed();
    } else {
      AlwaysClosed(calls[..|calls| - 1]);
      StepClosed(After(calls[..|calls| - 1]), calls[|calls| - 1]);
    }
  }

  lemma EmptyClosed()
    ensures Closed(EMPTY)
  {
  }

  lemma {:induction false} StrangersUnlogged(log: seq<Logged>, j: string)
    requires forall i :: 0 <= i < |log| ==> log[i].job != j
    ensures History(log, j) == []
  {
    if log != [] { StrangersUnlogged(log[..|log| - 1], j); }
  }

  lemma NewTold(d: Draft)
    requires !Guarded(d.status)
    ensures Tells(Read([Event(JobCreated, None, Some(d.status), None)]), NewRow(d))
  {
    var e := Event(JobCreated, None, Some(d.status), None);
    assert [e][..0] == [];
    assert Read([]) == UNREAD;
  }

  /** In every run of discreet callers, the events of a job read back as its row. */
  lemma {:induction false} LogAlwaysFaithful(calls: seq<Call>, j: string)
    requires AllDiscreet(calls) && j in After(calls).jobs
    ensures Tells(Read(History(After(calls).log, j)), After(calls).jobs[j])
  {
    hide Perform, RowStep, Tells, LeaseWhole, Discreet, Closed, Read;
    var n := |calls| - 1;
    var s, c := After(calls[..n]), calls[n];
    var t := After(calls);
    if j in s.jobs {
      LogAlwaysFaithful(calls[..n], j);
      SaneRun(calls[..n]);
      LeasesAlwaysWhole(calls[..n], j);
      var added := EveryRowSteps(s, c, j);
      StepTold(c, j, s.jobs[j], t.jobs[j], added, History(s.log, j));
    } else {
      NewRows(s, c, j);
      AlwaysClosed(calls[..n]);
      NewHistory(s, t, j, c.d);
      DiscreetCreate(c);
      NewTold(c.d);
    }
  }

  lemma NewHistory(s: State, t: State, j: string, d: Draft)
    requires Closed(s) && j !in s.jobs
    requires t.log == s.log + [Logged(j, Event(JobCreated, None, Some(d.status), None))]
    ensures History(t.log, j) == [Event(JobCreated, None, Some(d.status), None)]
  {
    StrangersUnlogged(s.log, j);
    HistoryOfOne(j, Event(JobCreated, None, Some(d.status), None), j);
    HistoryAppend(s.log, [Logged(j, Event(JobCreated, None, Some(d.status), None))], j);
  }

  lemma DiscreetCreate(c: Call)
    requires c.CreateCall? && Discreet(c)
    ensures !Guarded(c.d.status)
  {
  }

  lemma SaneRun(calls: seq<Call>)
    requires AllDiscreet(calls)
    ensures AllSane(calls)
  {
    hide Sane;
  }
}
