/** A crash the protocol does not recover from: a run in which the claimant of a segment dies right
    after its claim. What becomes of such a row is `JobRecovery.OrphanBlocks`. */
module JobOrphan {
  import opened Basics
  import opened JobTables
  import opened JobProtocol
  import opened JobRuns
  import JobRecovery

  /** A run, written as its events. */
  datatype Trace = Start(s: State) | Then(before: Trace, e: Event)

  ghost predicate Legal(c: Config, t: Trace)
    decreases t, 0
  {
    match t
    case Start(s) => Initial(s)
    case Then(before, e) => Legal(c, before) && Enabled(Last(c, before), e)
  }

  ghost function Last(c: Config, t: Trace): State
    requires Legal(c, t)
    decreases t, 1
  {
    match t
    case Start(s) => s
    case Then(before, e) => Apply(c, Last(c, before), e)
  }

  ghost predicate Reaches(c: Config, t: Trace, s: State) { Legal(c, t) && Last(c, t) == s }

  lemma Append(c: Config, run: seq<State>, events: seq<Event>, e: Event)
    returns (run': seq<State>, events': seq<Event>)
    requires JobRun(c, run, events) && Enabled(run[|events|], e)
    ensures JobRun(c, run', events') && run'[|events'|] == Apply(c, run[|events|], e)
  {
    run', events' := run + [Apply(c, run[|events|], e)], events + [e];
    forall k | 0 <= k < |events'|
      ensures Enabled(run'[k], events'[k]) && run'[k + 1] == Apply(c, run'[k], events'[k])
    {
      if k < |events| {
        assert run'[k] == run[k] && run'[k + 1] == run[k + 1] && events'[k] == events[k];
      }
    }
    assert run'[0] == run[0];
  }

  lemma {:induction false} AsRun(c: Config, t: Trace) returns (run: seq<State>, events: seq<Event>)
    requires KeysOk(c) && Legal(c, t)
    ensures JobRun(c, run, events) && run[|events|] == Last(c, t)
  {
    match t
    case Start(s) => run, events := [s], [];
    case Then(before, e) =>
      run, events := AsRun(c, before);
      run, events := Append(c, run, events, e);
  }

  /** The only process at a place. */
  function Alone(sh: Shared, entry: Entry, at: Place): State { State(sh, [Busy(entry, at)]) }

  lemma Go(c: Config, t: Trace, sh: Shared, entry: Entry, at: Place, sh': Shared, at': Place) returns (t': Trace)
    requires Reaches(c, t, Alone(sh, entry, at)) && !at.Acknowledge?
    requires Turn(c, sh, at, true, 0) == Outcome(sh', at')
    ensures Reaches(c, t', Alone(sh', entry, at'))
  {
    t' := Then(t, Step(0, true, 0));
    assert [Busy(entry, at)][0 := Busy(entry, at')] == [Busy(entry, at')];
  }

  lemma SegmentStep(c: Config, t: Trace, sh: Shared, at: Place, sh': Shared, at': Place) returns (t': Trace)
    requires Reaches(c, t, Alone(sh, JobEntry, at)) && InSegmenting(at)
    requires SegmentingTurn(c, sh, at, true) == Outcome(sh', at')
    ensures Reaches(c, t', Alone(sh', JobEntry, at'))
  {
    t' := Go(c, t, sh, JobEntry, at, sh', at');
  }

  lemma AttemptStep(c: Config, t: Trace, sh: Shared, i: nat, at: Place, sh': Shared, at': Place) returns (t': Trace)
    requires Reaches(c, t, Alone(sh, SegmentEntry(i), at)) && InAttempt(at)
    requires AttemptTurn(c, sh, at, true, 0) == Outcome(sh', at')
    ensures Reaches(c, t', Alone(sh', SegmentEntry(i), at'))
  {
    t' := Go(c, t, sh, SegmentEntry(i), at, sh', at');
  }

  function Fresh(jobs: nat): Shared {
    Shared(Tables(Job(Queued, None, 0, ""), map[]), true, map[], None, jobs, multiset{}, [], [], multiset{})
  }

  function Rows(status: SegmentStatus, attempts: nat): map<nat, Segment> { map[0 := Segment(status, attempts, "")] }

  function Working(rows: map<nat, Segment>, entries: multiset<nat>): Shared {
    Shared(Tables(Job(Synthesizing, Some(1), 0, ""), rows), true, map[], None, 0, entries, [], [], multiset{})
  }

  function Segmenting(rows: map<nat, Segment>): Shared {
    WithTables(Fresh(0), Tables(Job(Status.Segmenting, None, 0, ""), rows))
  }

  lemma Delivered(c: Config) returns (t: Trace)
    ensures Reaches(c, t, Alone(Fresh(0), JobEntry, LoadJob))
  {
    t := Then(Start(State(Fresh(1), [Idle])), Deliver(0, JobEntry));
    assert [Idle][0 := Busy(JobEntry, LoadJob)] == [Busy(JobEntry, LoadJob)];
  }

  lemma Accepted(c: Config) returns (t: Trace)
    requires |c.pieces| == 1
    ensures Reaches(c, t, Alone(Segmenting(map[]), JobEntry, CreateRow(0)))
  {
    var q, g := Fresh(0), Segmenting(map[]);
    t := Delivered(c);
    t := SegmentStep(c, t, q, LoadJob, q, Advance);
    t := SegmentStep(c, t, q, Advance, g, ReadInput);
    t := SegmentStep(c, t, g, ReadInput, g, SplitInput);
    t := SegmentStep(c, t, g, SplitInput, g, CreateRow(0));
  }

  /** The job entry is handled up to the fan-out. */
  lemma Segmented(c: Config) returns (t: Trace)
    requires |c.pieces| == 1
    ensures Reaches(c, t, Alone(Working(Rows(Pending, 0), multiset{}), JobEntry, Reload))
  {
    var g, r := Segmenting(map[]), Segmenting(Rows(Pending, 0));
    t := Accepted(c);
    t := SegmentStep(c, t, g, CreateRow(0), r, CreateRow(1));
    t := SegmentStep(c, t, r, CreateRow(1), r, SetTotal);
    t := SegmentStep(c, t, r, SetTotal, Working(Rows(Pending, 0), multiset{}), Reload);
  }

  lemma OneToDo(rows: map<nat, Segment>)
    requires rows == Rows(Pending, 0)
    ensures Todo(rows) == [0]
  {
    assert UnfinishedRows(rows) == {0} == Below(1);
    ListsBelow(Todo(rows), 1);
  }

  lemma Listing(c: Config)
    ensures var w := Working(Rows(Pending, 0), multiset{});
            Turn(c, w, FanOut(Synthesizing), true, 0) == Outcome(w, Publish([0]))
  {
    OneToDo(Rows(Pending, 0));
  }

  lemma FannedOut(c: Config) returns (t: Trace)
    requires |c.pieces| == 1
    ensures Reaches(c, t, Alone(Working(Rows(Pending, 0), multiset{}), JobEntry, Publish([0])))
  {
    var w := Working(Rows(Pending, 0), multiset{});
    t := Segmented(c);
    t := Go(c, t, w, JobEntry, Reload, w, FanOut(Synthesizing));
    Listing(c);
    t := Go(c, t, w, JobEntry, FanOut(Synthesizing), w, Publish([0]));
  }

  lemma EntryQueued(c: Config) returns (t: Trace)
    requires |c.pieces| == 1
    ensures Reaches(c, t, Alone(Working(Rows(Pending, 0), multiset{0}), JobEntry, Publish([])))
  {
    var w, v := Working(Rows(Pending, 0), multiset{}), Working(Rows(Pending, 0), multiset{0});
    t := FannedOut(c);
    assert [0][1..] == [];
    t := Go(c, t, w, JobEntry, Publish([0]), v, Publish([]));
  }

  /** The segment's entry is published and the job entry acknowledged. */
  lemma Published(c: Config) returns (t: Trace)
    requires |c.pieces| == 1
    ensures Reaches(c, t, State(Working(Rows(Pending, 0), multiset{0}), [Idle]))
  {
    var v := Working(Rows(Pending, 0), multiset{0});
    t := EntryQueued(c);
    t := Go(c, t, v, JobEntry, Publish([]), v, Acknowledge);
    t := Then(t, Step(0, true, 0));
    assert [Busy(JobEntry, Acknowledge)][0 := Idle] == [Idle];
  }

  lemma EntryTaken(c: Config) returns (t: Trace)
    requires |c.pieces| == 1
    ensures Reaches(c, t, Alone(Working(Rows(Pending, 0), multiset{}), SegmentEntry(0), LoadForSegment(0)))
  {
    var entry := SegmentEntry(0);
    t := Published(c);
    t := Then(t, Deliver(0, entry));
    assert [Idle][0 := Busy(entry, LoadForSegment(0))] == [Busy(entry, LoadForSegment(0))];
  }

  lemma RowClaimed(c: Config) returns (t: Trace)
    requires |c.pieces| == 1
    ensures Reaches(c, t, Alone(Working(Rows(Running, 1), multiset{}), SegmentEntry(0), FindRow(0)))
  {
    var w := Working(Rows(Pending, 0), multiset{});
    t := EntryTaken(c);
    t := AttemptStep(c, t, w, 0, LoadForSegment(0), w, Claim(0));
    t := AttemptStep(c, t, w, 0, Claim(0), Working(Rows(Running, 1), multiset{}), FindRow(0));
  }

  /** The consumer claims the segment and dies. Nothing else went wrong, the entry is back in the
      stream, and yet nobody owns the running row. */
  lemma OrphanReachable(c: Config) returns (run: seq<State>, events: seq<Event>)
    requires KeysOk(c) && |c.pieces| == 1
    ensures JobRun(c, run, events) && JobRecovery.Orphan(run[|events|], 0)
    ensures run[|events|].shared.tables.job.status == Synthesizing && 0 in run[|events|].shared.segmentStream
  {
    var t := RowClaimed(c);
    run, events := AsRun(c, Then(t, Crash(0)));
  }

  /** A store error right after the claim does the same: the handler gives up, its entry is
      acknowledged, and the row stays running with no entry left for it. */
  lemma OrphanByError(c: Config) returns (run: seq<State>, events: seq<Event>)
    requires KeysOk(c) && |c.pieces| == 1
    ensures JobRun(c, run, events) && JobRecovery.Orphan(run[|events|], 0)
    ensures run[|events|].shared.tables.job.status == Synthesizing && JobRecovery.Drained(run[|events|])
  {
    var w, entry := Working(Rows(Running, 1), multiset{}), SegmentEntry(0);
    var t := RowClaimed(c);
    t := Then(t, GiveUp(0));
    assert [Busy(entry, FindRow(0))][0 := Busy(entry, Acknowledge)] == [Busy(entry, Acknowledge)];
    assert Reaches(c, t, Alone(w, entry, Acknowledge));
    t := Then(t, Step(0, true, 0));
    assert [Busy(entry, Acknowledge)][0 := Idle] == [Idle];
    run, events := AsRun(c, t);
  }
}
