/** Exactly when an interrupted job recovers: one re-queue finishes it if and only if no segment row
    was left running. */
module JobExact {
  import opened Basics
  import opened JobTables
  import opened JobProtocol
  import opened JobSafety
  import opened JobRuns
  import opened JobRecovery

  // A running row belongs to a job that has been fanned out.

  ghost predicate HeldStarted(c: Config, sh: Shared) {
    forall i: nat | Holds(sh.tables, i) :: Started(c, sh.tables)
  }

  lemma TurnHeldStarted(c: Config, sh: Shared, at: Place, ok: bool, take: nat)
    requires KeysOk(c) && SharedOk(c, sh) && PlaceOk(c, sh, at) && HeldStarted(c, sh)
    ensures HeldStarted(c, Turn(c, sh, at, ok, take).shared)
  {
    var o := Turn(c, sh, at, ok, take);
    TurnKeeps(c, sh, at, ok, take);
    forall i: nat | Holds(o.shared.tables, i)
      ensures Started(c, o.shared.tables)
    {
      if Holds(sh.tables, i) {
        StartedStays(c, sh, o.shared);
      } else {
        OwnershipGained(c, sh, at, ok, take, i);
        OwnersStarted(c, o.shared, o.at);
      }
    }
  }

  lemma OwnersStarted(c: Config, sh: Shared, at: Place)
    requires PlaceOk(c, sh, at) && Owned(at).Some?
    ensures Started(c, sh.tables)
  {
  }

  lemma EventHeldStarted(c: Config, s: State, e: Event)
    requires KeysOk(c) && Inv(c, s) && Enabled(s, e) && HeldStarted(c, s.shared)
    ensures HeldStarted(c, Apply(c, s, e).shared)
  {
    if e.Step? {
      assert ProcessOk(c, s.shared, s.processes[e.p]);
      if !s.processes[e.p].at.Acknowledge? {
        TurnHeldStarted(c, s.shared, s.processes[e.p].at, e.ok, e.take);
      }
    } else {
      EventKeeps(c, s, e);
      OutsideRows(c, s, e);
      forall i: nat | Holds(Apply(c, s, e).shared.tables, i)
        ensures Started(c, Apply(c, s, e).shared.tables)
      {
        assert Holds(s.shared.tables, i);
        StartedStays(c, s.shared, Apply(c, s, e).shared);
      }
    }
  }

  lemma OutsideRows(c: Config, s: State, e: Event)
    requires Enabled(s, e) && !e.Step?
    ensures Apply(c, s, e).shared.tables.rows == s.shared.tables.rows
  {
  }

  lemma {:induction false} RunHeldStarted(c: Config, run: seq<State>, events: seq<Event>, k: nat)
    requires JobRun(c, run, events) && k < |run|
    ensures HeldStarted(c, run[k].shared)
  {
    if k > 0 {
      RunHeldStarted(c, run, events, k - 1);
      RunKeeps(c, run, events, k - 1);
      EventHeldStarted(c, run[k - 1], events[k - 1]);
    }
  }

  // A job with an orphaned row can run out of work unfinished.

  /** Places a handler passes while nothing fails and some segment is unfinished. */
  predicate Calm(at: Place) {
    at.LoadJob? || at.FanOut? || at.Publish? || InAttempt(at) || at.CompleteRow? || at.CountLeft? || at.Acknowledge?
  }

  predicate AllCalm(s: State) {
    forall p | 0 <= p < |s.processes| && s.processes[p].Busy? :: Calm(s.processes[p].at)
  }

  lemma CalmAttempt(c: Config, sh: Shared, at: Place)
    requires SharedOk(c, sh) && PlaceOk(c, sh, at) && InAttempt(at) && StatusOf(sh).Synthesizing?
    ensures var o := AttemptTurn(c, sh, at, true, 0);
            StatusOf(o.shared).Synthesizing? && Calm(o.at)
  {
    assert sh.text;
  }

  lemma CalmTurn(c: Config, sh: Shared, at: Place, i: nat)
    requires SharedOk(c, sh) && PlaceOk(c, sh, at) && Calm(at) && StatusOf(sh).Synthesizing?
    requires i in sh.tables.rows && !sh.tables.rows[i].status.Done?
    ensures var o := Turn(c, sh, at, true, 0);
            StatusOf(o.shared).Synthesizing? && Calm(o.at)
  {
    if InAttempt(at) {
      CalmAttempt(c, sh, at);
    } else {
      assert i in Todo(sh.tables.rows) && i in UnfinishedRows(sh.tables.rows);
    }
  }

  /** The job waits for a row that nobody will finish, and nothing else is wrong. */
  ghost predicate Stuck(c: Config, s: State, i: nat) {
    KeysOk(c) && Inv(c, s) && Orphan(s, i) && StatusOf(s.shared).Synthesizing? && AllCalm(s)
  }

  lemma StuckKeeps(c: Config, s: State, e: Event, i: nat)
    requires Stuck(c, s, i) && Enabled(s, e) && (e.Deliver? || (e.Step? && e.ok && e.take == 0))
    ensures Stuck(c, Apply(c, s, e), i)
  {
    EventKeeps(c, s, e);
    OrphanStays(c, s, e, i);
    StaysCalm(c, s, e, i);
  }

  lemma StuckStep(c: Config, s: State, i: nat) returns (e: Event, s': State)
    requires Stuck(c, s, i) && |s.processes| > 0 && !Drained(s)
    ensures Enabled(s, e) && Smooth(e) && s' == Apply(c, s, e)
    ensures Stuck(c, s', i) && |s'.processes| > 0 && WorkLeft(c, s') < WorkLeft(c, s)
  {
    e := NextEvent(s);
    s' := Apply(c, s, e);
    SmoothPays(c, s, e);
    StuckKeeps(c, s, e, i);
  }

  lemma StaysCalm(c: Config, s: State, e: Event, i: nat)
    requires Stuck(c, s, i) && Enabled(s, e) && (e.Deliver? || (e.Step? && e.ok && e.take == 0))
    ensures StatusOf(Apply(c, s, e).shared).Synthesizing? && AllCalm(Apply(c, s, e))
  {
    var s' := Apply(c, s, e);
    assert forall q | 0 <= q < |s.processes| && q != e.p :: s'.processes[q] == s.processes[q];
    if e.Step? && !s.processes[e.p].at.Acknowledge? {
      assert ProcessOk(c, s.shared, s.processes[e.p]);
      CalmTurn(c, s.shared, s.processes[e.p].at, i);
    }
  }

  /** Without a crash or an error, it can use up all entries and still not be over. */
  lemma {:induction false} DrainsUnfinished(c: Config, s: State, i: nat) returns (run: seq<State>, events: seq<Event>)
    requires Stuck(c, s, i) && |s.processes| > 0
    ensures SmoothRun(c, run, events) && run[0] == s
    ensures Drained(run[|run| - 1]) && StatusOf(run[|run| - 1].shared).Synthesizing?
    decreases WorkLeft(c, s)
  {
    if Drained(s) {
      run, events := Unmoved(c, s);
    } else {
      var e, s' := StuckStep(c, s, i);
      run, events := DrainsUnfinished(c, s', i);
      run, events := Prepend(c, s, e, run, events);
    }
  }

  // The theorem.

  /** Every crash-free continuation of `s` that runs out of entries and handlers ends the job. */
  ghost predicate AlwaysEnds(c: Config, s: State) {
    forall tail: seq<State>, smooth: seq<Event> |
      SmoothRun(c, tail, smooth) && tail[0] == s && Drained(tail[|tail| - 1]) ::
      StatusOf(tail[|tail| - 1].shared).Terminal()
  }

  predicate NoneRunning(t: Tables) {
    forall i | i in t.rows :: !t.rows[i].status.Running?
  }

  lemma StuckAfterRequeue(c: Config, run: seq<State>, events: seq<Event>, s: State, i: nat)
    requires JobRun(c, run, events) && s == run[|run| - 1]
    requires Quiet(s) && !StatusOf(s.shared).Terminal() && Holds(s.shared.tables, i)
    ensures Stuck(c, Apply(c, s, Reconcile), i)
  {
    RunKeeps(c, run, events, |run| - 1);
    RunHeldStarted(c, run, events, |run| - 1);
    NotAllDone(c, s.shared, i);
    EventKeeps(c, s, Reconcile);
    assert Started(c, s.shared.tables);
  }

  /** After any history that left the job unfinished and nobody working on it, one re-queue brings it
      to its end in every crash-free continuation if and only if no row was left running. */
  lemma RecoversExactly(c: Config, run: seq<State>, events: seq<Event>, s: State)
    requires JobRun(c, run, events) && s == run[|run| - 1] && |s.processes| > 0
    requires Quiet(s) && !StatusOf(s.shared).Terminal()
    ensures AlwaysEnds(c, Apply(c, s, Reconcile)) <==> NoneRunning(s.shared.tables)
  {
    var s' := Apply(c, s, Reconcile);
    if NoneRunning(s.shared.tables) {
      forall tail: seq<State>, smooth: seq<Event> |
        SmoothRun(c, tail, smooth) && tail[0] == s' && Drained(tail[|tail| - 1])
        ensures StatusOf(tail[|tail| - 1].shared).Terminal()
      {
        Recovery(c, run, events, tail, smooth);
      }
    } else {
      var i :| i in s.shared.tables.rows && s.shared.tables.rows[i].status.Running?;
      StuckAfterRequeue(c, run, events, s, i);
      var tail, smooth := DrainsUnfinished(c, s', i);
      assert !AlwaysEnds(c, s');
    }
  }

  /** And such an end is there to be reached: the bound of `Recovery` is not met by standing still. */
  lemma RequeueFinishes(c: Config, run: seq<State>, events: seq<Event>, s: State)
    returns (tail: seq<State>, smooth: seq<Event>)
    requires JobRun(c, run, events) && s == run[|run| - 1] && |s.processes| > 0
    requires Quiet(s) && NoneRunning(s.shared.tables)
    ensures SmoothRun(c, tail, smooth) && tail[0] == Apply(c, s, Reconcile)
    ensures Drained(tail[|tail| - 1]) && StatusOf(tail[|tail| - 1].shared).Terminal()
  {
    RunKeeps(c, run, events, |run| - 1);
    EventKeeps(c, s, Reconcile);
    tail, smooth := CanDrain(c, Apply(c, s, Reconcile));
  }
}
