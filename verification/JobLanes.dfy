/** One orchestrator process as it is started: one consumer of the job stream and one of the segment
    stream, side by side. In every crash-free interleaving of the two, a fresh job ends as foretold
    from the engine's answers. */
module JobLanes {
  import opened Basics
  import opened JobTables
  import opened JobProtocol
  import opened JobSafety
  import opened JobRuns
  import opened JobRecovery
  import JobDrain

  type World = JobDrain.World

  /** The call at this place is answered as the world says. */
  predicate Answers(w: World, at: Place, ok: bool) {
    match at
    case ReadInput => ok == w.inputReadable
    case SplitInput => ok == w.inputSplits
    case ReadText(i, a) => ok == w.textReadable(i, a)
    case SplitText(i, a) => ok == w.textSplits(i, a)
    case Render(i, a) => ok == w.synthesizes(i, a)
    case MergeKeys(_) => ok == w.merges
    case _ => true
  }

  /** Process 0 consumes job entries and process 1 segment entries. */
  predicate LaneEvent(w: World, s: State, e: Event) {
    match e
    case Deliver(p, entry) => p == 0 <==> entry.JobEntry?
    case Step(p, ok, _) => p < |s.processes| && s.processes[p].Busy? && Answers(w, s.processes[p].at, ok)
    case _ => false
  }

  ghost predicate LaneRun(c: Config, w: World, run: seq<State>, events: seq<Event>) {
    && JobRun(c, run, events) && c.pieces == w.pieces
    && |run[0].processes| == 2 && run[0].shared.jobStream == 1
    && forall k | 0 <= k < |events| :: LaneEvent(w, run[k], events[k])
  }

  // The segment consumer. While it is idle its place counts as `Acknowledge`.

  predicate Alive(status: Status) { status.Synthesizing? || status.Merging? }

  /** What a row says about the past: a done row succeeded at its last attempt; while the job is alive
      an unfinished one has failed all earlier attempts, and has one left unless it just decided the
      job. */
  predicate RowFine(w: World, row: Segment, i: nat, alive: bool, failing: bool) {
    && row.attempts <= MaxSegmentAttempts
    && (row.status.Done? ==> row.attempts >= 1 && w.AttemptOk(i, row.attempts))
    && (alive && row.status.Running? ==> forall k | 1 <= k < row.attempts :: !w.AttemptOk(i, k))
    && (alive && row.Claimable() ==>
          (row.attempts < MaxSegmentAttempts || failing) && forall k | 1 <= k <= row.attempts :: !w.AttemptOk(i, k))
  }

  /** What the place of the segment consumer says about the job and about the answers so far. */
  predicate WorkPlace(w: World, t: Tables, at: Place) {
    var status := t.job.status;
    match at
    case LoadForSegment(_) => true
    case Claim(_) => status.Synthesizing?
    case FindRow(_) => status.Synthesizing?
    case ReadText(_, _) => status.Synthesizing?
    case SplitText(i, a) => status.Synthesizing? && w.textReadable(i, a)
    case Render(i, a) => status.Synthesizing? && w.textReadable(i, a) && w.textSplits(i, a)
    case CompleteRow(i, _) => status.Synthesizing? && i in t.rows && w.AttemptOk(i, t.rows[i].attempts)
    case CountLeft => status.Synthesizing?
    case ReloadDone => status.Synthesizing?
    case FailRow(i, a) => status.Synthesizing? && !w.AttemptOk(i, a)
    case Requeue(_) => status.Synthesizing?
    case BeginMerge(loaded) => status.Synthesizing? && loaded.Synthesizing?
    case ListKeys => status.Merging?
    case MergeKeys(_) => status.Merging?
    case CompleteRun(_) => status.Merging? && w.merges
    case FailRun => Alive(status) && !w.Completes()
    case CleanUp => true
    case Notify => true
    case Acknowledge => true
    case _ => false
  }

  ghost predicate WorkInv(w: World, t: Tables, at: Place) {
    var status := t.job.status;
    && (Alive(status) || status.Completed? || status.Failed?)
    && (status.Completed? ==> w.Completes()) && (status.Failed? ==> !w.Completes())
    && (Alive(status) ==> w.InputOk())
    && (status.Merging? ==> at.ListKeys? || at.MergeKeys? || at.CompleteRun? || at.FailRun?)
    && WorkPlace(w, t, at)
    && forall i | i in t.rows :: RowFine(w, t.rows[i], i, Alive(status), at.FailRun?)
  }

  /** A third failure decides: the job cannot complete. */
  lemma ThirdFailure(w: World, t: Tables, i: nat, a: nat)
    requires WorkInv(w, t, FailRow(i, a)) && i in t.rows && t.rows[i].status.Running? && t.rows[i].attempts == a
    requires a >= MaxSegmentAttempts && i < |w.pieces|
    ensures !w.Completes()
  {
    assert RowFine(w, t.rows[i], i, true, false);
    assert !w.AttemptOk(i, 1) && !w.AttemptOk(i, 2) && !w.AttemptOk(i, 3);
    assert !w.SegmentOk(i);
  }

  lemma AllSegmentsOk(w: World, t: Tables, at: Place)
    requires WorkInv(w, t, at) && w.InputOk() && w.merges
    requires forall i: nat | i < |w.pieces| :: i in t.rows && t.rows[i].status.Done?
    ensures w.Completes()
  {
    forall i: nat | i < |w.pieces|
      ensures w.SegmentOk(i)
    {
      assert RowFine(w, t.rows[i], i, Alive(t.job.status), at.FailRun?);
      var a := t.rows[i].attempts;
      assert a == 1 || a == 2 || a == 3;
    }
  }

  /** A step that leaves the tables alone only has to justify its next place. */
  lemma PlaceWorks(w: World, t: Tables, at: Place, at': Place)
    requires WorkInv(w, t, at) && WorkPlace(w, t, at') && (at'.FailRun? || !at.FailRun?)
    requires t.job.status.Merging? ==> at'.ListKeys? || at'.MergeKeys? || at'.CompleteRun? || at'.FailRun?
    ensures WorkInv(w, t, at')
  {
    forall i | i in t.rows
      ensures RowFine(w, t.rows[i], i, Alive(t.job.status), at'.FailRun?)
    {
      assert RowFine(w, t.rows[i], i, Alive(t.job.status), at.FailRun?);
    }
  }

  lemma RowWorks(w: World, t: Tables, at: Place, i: nat, row: Segment, job: Job, at': Place)
    requires WorkInv(w, t, at) && i in t.rows && job.status == t.job.status && !at.FailRun?
    requires RowFine(w, row, i, Alive(job.status), at'.FailRun?)
    requires WorkPlace(w, Tables(job, t.rows[i := row]), at') && !job.status.Merging?
    ensures WorkInv(w, Tables(job, t.rows[i := row]), at')
  {
    var t' := Tables(job, t.rows[i := row]);
    forall k | k in t'.rows
      ensures RowFine(w, t'.rows[k], k, Alive(job.status), at'.FailRun?)
    {
      assert k != i ==> RowFine(w, t.rows[k], k, Alive(job.status), false);
    }
  }

  lemma ClaimWorks(w: World, sh: Shared, i: nat)
    requires WorkInv(w, sh.tables, Claim(i)) && ClaimAffects(sh.tables, i)
    ensures WorkInv(w, ClaimSegment(sh.tables, i), FindRow(i))
  {
    var row := sh.tables.rows[i];
    assert RowFine(w, row, i, true, false);
    var row' := row.(status := Running, attempts := row.attempts + 1);
    RowWorks(w, sh.tables, Claim(i), i, row', sh.tables.job, FindRow(i));
  }

  lemma AttemptWorks(c: Config, w: World, sh: Shared, at: Place, ok: bool, take: nat)
    requires SharedOk(c, sh) && PlaceOk(c, sh, at) && InAttempt(at) && c.pieces == w.pieces
    requires WorkInv(w, sh.tables, at) && Answers(w, at, ok)
    ensures var o := AttemptTurn(c, sh, at, ok, take);
            WorkInv(w, o.shared.tables, o.at)
  {
    var o := AttemptTurn(c, sh, at, ok, take);
    if at.Claim? && ClaimAffects(sh.tables, at.seqNo) {
      ClaimWorks(w, sh, at.seqNo);
    } else {
      AttemptPlace(c, w, sh, at, ok, take);
      PlaceWorks(w, sh.tables, at, o.at);
    }
  }

  lemma AttemptPlace(c: Config, w: World, sh: Shared, at: Place, ok: bool, take: nat)
    requires SharedOk(c, sh) && PlaceOk(c, sh, at) && InAttempt(at) && c.pieces == w.pieces
    requires WorkInv(w, sh.tables, at) && Answers(w, at, ok) && !(at.Claim? && ClaimAffects(sh.tables, at.seqNo))
    ensures var o := AttemptTurn(c, sh, at, ok, take);
            o.shared.tables == sh.tables && WorkPlace(w, sh.tables, o.at) && !o.at.FailRun?
  {
    if at.ReadText? {
      assert sh.text;
    } else if at.Render? || at.SplitText? {
      assert at.seqNo < |c.pieces|;
    }
  }

  lemma CompleteWorks(c: Config, w: World, sh: Shared, i: nat, key: string)
    requires SharedOk(c, sh) && PlaceOk(c, sh, CompleteRow(i, key)) && WorkInv(w, sh.tables, CompleteRow(i, key))
    ensures WorkInv(w, SettleTurn(sh, CompleteRow(i, key)).shared.tables, CountLeft)
  {
    var t := sh.tables;
    assert RowFine(w, t.rows[i], i, true, false);
    assert RowOk(c, t.rows[i], sh.objects, sh.completions[i], i);
    var row := t.rows[i].(status := Done, key := key);
    RowWorks(w, t, CompleteRow(i, key), i, row, t.job.(done := t.job.done + 1), CountLeft);
  }

  lemma FailWorks(c: Config, w: World, sh: Shared, i: nat, a: nat)
    requires PlaceOk(c, sh, FailRow(i, a)) && WorkInv(w, sh.tables, FailRow(i, a)) && c.pieces == w.pieces
    ensures WorkInv(w, SettleTurn(sh, FailRow(i, a)).shared.tables, SettleTurn(sh, FailRow(i, a)).at)
  {
    var t := sh.tables;
    assert i < |c.pieces|;
    assert RowFine(w, t.rows[i], i, true, false);
    var at' := if a >= MaxSegmentAttempts then FailRun else Requeue(i);
    if a >= MaxSegmentAttempts {
      ThirdFailure(w, t, i, a);
    }
    RowWorks(w, t, FailRow(i, a), i, t.rows[i].(status := Broken), t.job, at');
  }

  lemma CountWorks(w: World, sh: Shared)
    requires WorkInv(w, sh.tables, CountLeft)
    ensures WorkInv(w, SettleTurn(sh, CountLeft).shared.tables, SettleTurn(sh, CountLeft).at)
  {
    PlaceWorks(w, sh.tables, CountLeft, SettleTurn(sh, CountLeft).at);
  }

  lemma SettleWorks(c: Config, w: World, sh: Shared, at: Place)
    requires SharedOk(c, sh) && PlaceOk(c, sh, at) && InSettle(at) && c.pieces == w.pieces
    requires WorkInv(w, sh.tables, at)
    ensures var o := SettleTurn(sh, at);
            WorkInv(w, o.shared.tables, o.at)
  {
    match at
    case CompleteRow(i, key) => CompleteWorks(c, w, sh, i, key);
    case FailRow(i, a) => FailWorks(c, w, sh, i, a);
    case CountLeft => CountWorks(w, sh);
    case ReloadDone => PlaceWorks(w, sh.tables, at, BeginMerge(sh.tables.job.status));
    case Requeue(_) => PlaceWorks(w, sh.tables, at, Acknowledge);
  }

  lemma StatusWorks(w: World, t: Tables, at: Place, job: Job, at': Place)
    requires WorkInv(w, t, at) && WorkPlace(w, Tables(job, t.rows), at') && !at'.FailRun?
    requires job.status.Merging? ==> at'.ListKeys? || at'.MergeKeys? || at'.CompleteRun?
    requires Alive(job.status) ==> Alive(t.job.status) && !at.FailRun?
    requires Alive(job.status) || job.status.Completed? || job.status.Failed?
    requires (job.status.Completed? ==> w.Completes()) && (job.status.Failed? ==> !w.Completes())
    ensures WorkInv(w, Tables(job, t.rows), at')
  {
    forall i | i in t.rows
      ensures RowFine(w, t.rows[i], i, Alive(job.status), false)
    {
      assert RowFine(w, t.rows[i], i, Alive(t.job.status), at.FailRun?);
    }
  }

  lemma MergeKeysWorks(c: Config, w: World, sh: Shared, keys: seq<string>, ok: bool)
    requires SharedOk(c, sh) && PlaceOk(c, sh, MergeKeys(keys)) && WorkInv(w, sh.tables, MergeKeys(keys))
    requires ok == w.merges
    ensures var o := MergeTurn(c, sh, MergeKeys(keys), ok);
            WorkInv(w, o.shared.tables, o.at)
  {
    KeysFetchable(c, sh, keys);
    PlaceWorks(w, sh.tables, MergeKeys(keys), if ok then CompleteRun(c.outputKey) else FailRun);
  }

  lemma ListKeysWorks(c: Config, w: World, sh: Shared, ok: bool)
    requires KeysOk(c) && SharedOk(c, sh) && PlaceOk(c, sh, ListKeys) && WorkInv(w, sh.tables, ListKeys)
    ensures var o := MergeTurn(c, sh, ListKeys, ok);
            WorkInv(w, o.shared.tables, o.at)
  {
    DoneIsMergeable(c, sh);
    PlaceWorks(w, sh.tables, ListKeys, MergeKeys(Keys(sh.tables.rows)));
  }

  lemma CompleteRunWorks(c: Config, w: World, sh: Shared, key: string)
    requires PlaceOk(c, sh, CompleteRun(key)) && WorkInv(w, sh.tables, CompleteRun(key)) && c.pieces == w.pieces
    ensures WorkInv(w, CompleteJob(sh.tables, key), CleanUp)
  {
    var t := sh.tables;
    AllSegmentsOk(w, t, CompleteRun(key));
    StatusWorks(w, t, CompleteRun(key), t.job.(status := Completed, output := key), CleanUp);
  }

  lemma MergeWorks(c: Config, w: World, sh: Shared, at: Place, ok: bool)
    requires KeysOk(c) && SharedOk(c, sh) && PlaceOk(c, sh, at) && InMerge(at) && c.pieces == w.pieces
    requires WorkInv(w, sh.tables, at) && Answers(w, at, ok)
    ensures var o := MergeTurn(c, sh, at, ok);
            WorkInv(w, o.shared.tables, o.at)
  {
    match at
    case BeginMerge(_) => StatusWorks(w, sh.tables, at, sh.tables.job.(status := Merging), ListKeys);
    case ListKeys => ListKeysWorks(c, w, sh, ok);
    case MergeKeys(keys) => MergeKeysWorks(c, w, sh, keys, ok);
    case CompleteRun(key) => CompleteRunWorks(c, w, sh, key);
  }

  lemma CloseWorks(c: Config, w: World, sh: Shared, at: Place, ok: bool)
    requires PlaceOk(c, sh, at) && InClose(at) && WorkInv(w, sh.tables, at)
    ensures var o := CloseTurn(sh, at, ok);
            WorkInv(w, o.shared.tables, o.at)
  {
    if at.FailRun? {
      StatusWorks(w, sh.tables, at, sh.tables.job.(status := Failed), CleanUp);
    } else {
      PlaceWorks(w, sh.tables, at, CloseTurn(sh, at, ok).at);
    }
  }

  lemma TurnWorks(c: Config, w: World, sh: Shared, at: Place, ok: bool, take: nat)
    requires KeysOk(c) && SharedOk(c, sh) && PlaceOk(c, sh, at) && c.pieces == w.pieces
    requires WorkInv(w, sh.tables, at) && Answers(w, at, ok)
    ensures var o := Turn(c, sh, at, ok, take);
            WorkInv(w, o.shared.tables, o.at)
  {
    if InAttempt(at) {
      AttemptWorks(c, w, sh, at, ok, take);
    } else if InSettle(at) {
      SettleWorks(c, w, sh, at);
    } else if InMerge(at) {
      MergeWorks(c, w, sh, at, ok);
    } else {
      CloseWorks(c, w, sh, at, ok);
    }
  }

  // The job consumer, until it has published.

  predicate EarlyPlace(w: World, status: Status, at: Place) {
    match at
    case LoadJob => status.Queued?
    case Advance => status.Queued?
    case ReadInput => status.Segmenting?
    case SplitInput => status.Segmenting? && w.inputReadable
    case CreateRow(_) => status.Segmenting? && w.InputOk()
    case SetTotal => status.Segmenting? && w.InputOk()
    case Reload => status.Synthesizing? && w.InputOk()
    case FanOut(loaded) => status.Synthesizing? && loaded.Synthesizing? && w.InputOk()
    case FailRun => status.Segmenting? && !w.Completes()
    case _ => false
  }

  predicate Untouched(rows: Rows) {
    forall i | i in rows :: rows[i] == Segment(Pending, 0, "")
  }

  ghost predicate EarlyInv(w: World, t: Tables, at: Place) {
    EarlyPlace(w, t.job.status, at) && Untouched(t.rows)
  }

  /** What is left to the job consumer once segments may be handled. */
  predicate LatePlace(at: Place) { at.Publish? || at.CleanUp? || at.Notify? || at.Acknowledge? }

  lemma UntouchedWorks(w: World, t: Tables)
    requires Untouched(t.rows)
    requires (t.job.status.Synthesizing? && w.InputOk()) || (t.job.status.Failed? && !w.Completes())
    ensures WorkInv(w, t, Acknowledge)
  {
  }

  lemma SegmentingEarly(c: Config, w: World, sh: Shared, at: Place, ok: bool)
    requires SharedOk(c, sh) && PlaceOk(c, sh, at) && InSegmenting(at) && c.pieces == w.pieces
    requires EarlyInv(w, sh.tables, at) && Answers(w, at, ok)
    ensures var o := SegmentingTurn(c, sh, at, ok);
            EarlyInv(w, o.shared.tables, o.at) && o.shared.segmentStream == sh.segmentStream
  {
    if at.ReadInput? {
      assert sh.text;
    }
  }

  lemma FanOutEarly(c: Config, w: World, sh: Shared, at: Place)
    requires PlaceOk(c, sh, at) && (at.Reload? || at.FanOut?) && c.pieces == w.pieces
    requires EarlyInv(w, sh.tables, at)
    ensures var o := FanOutTurn(sh, at);
            && o.shared == sh
            && (if at.Reload? then EarlyInv(w, sh.tables, o.at)
                else o.at.Publish? && WorkInv(w, sh.tables, Acknowledge))
  {
    if at.FanOut? {
      assert 0 in sh.tables.rows && 0 in Todo(sh.tables.rows);
      UntouchedWorks(w, sh.tables);
    }
  }

  /** The job consumer's turns before segments may be handled lead on, to the publishing of an
      untouched job, or to its failure. */
  lemma EarlyTurn(c: Config, w: World, sh: Shared, at: Place, ok: bool, take: nat)
    requires SharedOk(c, sh) && PlaceOk(c, sh, at) && c.pieces == w.pieces
    requires EarlyInv(w, sh.tables, at) && Answers(w, at, ok)
    ensures var o := Turn(c, sh, at, ok, take);
            && o.shared.segmentStream == sh.segmentStream
            && (EarlyInv(w, o.shared.tables, o.at) || (LatePlace(o.at) && WorkInv(w, o.shared.tables, Acknowledge)))
  {
    if InSegmenting(at) {
      SegmentingEarly(c, w, sh, at, ok);
    } else if at.FailRun? {
      UntouchedWorks(w, FailJob(sh.tables));
    } else {
      FanOutEarly(c, w, sh, at);
    }
  }

  lemma LateTurn(c: Config, sh: Shared, at: Place, ok: bool, take: nat)
    requires LatePlace(at)
    ensures var o := Turn(c, sh, at, ok, take);
            LatePlace(o.at) && o.shared.tables == sh.tables
  {
  }

  // Both together.

  /** The place of the segment consumer. */
  function Worker(s: State): Place
    requires |s.processes| == 2
  {
    if s.processes[1].Busy? then s.processes[1].at else Acknowledge
  }

  /** Nothing is published yet. */
  ghost predicate Early(w: World, s: State)
    requires |s.processes| == 2
  {
    && s.processes[1].Idle? && s.shared.segmentStream == multiset{}
    && (if s.processes[0].Idle? then s.shared.jobStream == 1 && EarlyInv(w, s.shared.tables, LoadJob)
        else s.shared.jobStream == 0 && EarlyInv(w, s.shared.tables, s.processes[0].at))
  }

  ghost predicate Late(w: World, s: State)
    requires |s.processes| == 2
  {
    && s.shared.jobStream == 0 && (s.processes[0].Busy? ==> LatePlace(s.processes[0].at))
    && WorkInv(w, s.shared.tables, Worker(s))
  }

  ghost predicate LaneInv(c: Config, w: World, s: State) {
    && KeysOk(c) && Inv(c, s) && c.pieces == w.pieces && |s.processes| == 2
    && (Early(w, s) || Late(w, s))
  }

  lemma DeliverLane(c: Config, w: World, s: State, e: Event)
    requires LaneInv(c, w, s) && Enabled(s, e) && LaneEvent(w, s, e) && e.Deliver?
    ensures var s' := Apply(c, s, e);
            |s'.processes| == 2 && (Early(w, s') || Late(w, s'))
  {
    var s' := Apply(c, s, e);
    if e.p == 1 {
      assert Late(w, s) && Worker(s') == LoadForSegment(e.entry.seqNo);
      LoadWorks(w, s.shared.tables, e.entry.seqNo);
    }
  }

  /** A finished consumer takes up another entry; the job is not merging then. */
  lemma LoadWorks(w: World, t: Tables, i: nat)
    requires WorkInv(w, t, Acknowledge)
    ensures WorkInv(w, t, LoadForSegment(i))
  {
    PlaceWorks(w, t, Acknowledge, LoadForSegment(i));
  }

  lemma JobLane(c: Config, w: World, s: State, e: Event)
    requires LaneInv(c, w, s) && Enabled(s, e) && LaneEvent(w, s, e) && e.Step? && e.p == 0
    ensures var s' := Apply(c, s, e);
            |s'.processes| == 2 && (Early(w, s') || Late(w, s'))
  {
    var at := s.processes[0].at;
    assert ProcessOk(c, s.shared, s.processes[0]);
    StreamGrows(c, s.shared, at, e.ok, e.take);
    if !at.Acknowledge? {
      if Early(w, s) {
        EarlyTurn(c, w, s.shared, at, e.ok, e.take);
      } else {
        LateTurn(c, s.shared, at, e.ok, e.take);
      }
    }
  }

  lemma SegmentLane(c: Config, w: World, s: State, e: Event)
    requires LaneInv(c, w, s) && Enabled(s, e) && LaneEvent(w, s, e) && e.Step? && e.p == 1
    ensures var s' := Apply(c, s, e);
            |s'.processes| == 2 && Late(w, s')
  {
    var at := s.processes[1].at;
    assert ProcessOk(c, s.shared, s.processes[1]);
    StreamGrows(c, s.shared, at, e.ok, e.take);
    if !at.Acknowledge? {
      TurnWorks(c, w, s.shared, at, e.ok, e.take);
    }
  }

  lemma LaneKeeps(c: Config, w: World, s: State, e: Event)
    requires LaneInv(c, w, s) && Enabled(s, e) && LaneEvent(w, s, e)
    ensures LaneInv(c, w, Apply(c, s, e))
  {
    EventKeeps(c, s, e);
    if e.Deliver? {
      DeliverLane(c, w, s, e);
    } else if e.p == 0 {
      JobLane(c, w, s, e);
    } else {
      SegmentLane(c, w, s, e);
    }
  }

  lemma {:induction false} LaneRunKeeps(c: Config, w: World, run: seq<State>, events: seq<Event>, k: nat)
    requires LaneRun(c, w, run, events) && k < |run|
    ensures LaneInv(c, w, run[k])
  {
    if k == 0 {
      RunKeeps(c, run, events, 0);
    } else {
      LaneRunKeeps(c, w, run, events, k - 1);
      LaneKeeps(c, w, run[k - 1], events[k - 1]);
    }
  }

  // The promises.

  lemma LaneRunIsLive(c: Config, w: World, run: seq<State>, events: seq<Event>, k: nat)
    requires LaneRun(c, w, run, events) && k < |run|
    ensures Live(c, run[k]) && k <= JobEntryWork(|c.pieces|) + RetryWork * 2 * |c.pieces|
  {
    RunKeeps(c, run, events, 0);
    assert Live(c, run[0]);
    assert SmoothRun(c, run, events);
    SmoothRunKeeps(c, run, events, k);
    QuietWork(|c.pieces|, run[0].processes);
    FreshRetries(run[0].shared.tables.rows, |c.pieces|);
  }

  lemma {:induction false} FreshRetries(rows: Rows, n: nat)
    requires rows == map[]
    ensures AllRetriesLeft(rows, n) == 2 * n
  {
    if n > 0 {
      FreshRetries(rows, n - 1);
    }
  }

  // Syntheses.

  /** Steps taken at a call of the engine's synthesis. */
  function Syntheses(run: seq<State>, events: seq<Event>, k: nat): nat
    requires k < |run| == |events| + 1
  {
    if k == 0 then 0
    else Syntheses(run, events, k - 1) + if Synthesizes(run[k - 1], events[k - 1]) then 1 else 0
  }

  predicate Synthesizes(s: State, e: Event) {
    e.Step? && e.p < |s.processes| && s.processes[e.p].Busy? && s.processes[e.p].at.Render?
  }

  /** A claim that has not led to a synthesis yet. */
  function Unspent(at: Place): nat {
    if at.FindRow? || at.ReadText? || at.SplitText? || at.Render? then 1 else 0
  }

  function Attempts(c: Config, sh: Shared): nat { JobDrain.TotalAttempts(sh.tables.rows, |c.pieces|) }

  lemma AttemptsKept(c: Config, sh: Shared, at: Place, ok: bool, take: nat)
    requires !at.Claim?
    ensures Attempts(c, Turn(c, sh, at, ok, take).shared) == Attempts(c, sh)
  {
    if !TouchesRows(at) {
      RowsChange(c, sh, at, ok, take);
    } else {
      JobDrain.AttemptsSame(sh.tables.rows, Turn(c, sh, at, ok, take).shared.tables.rows, |c.pieces|);
    }
  }

  lemma ClaimCounts(c: Config, sh: Shared, i: nat, ok: bool, take: nat)
    requires PlaceOk(c, sh, Claim(i))
    ensures var o := AttemptTurn(c, sh, Claim(i), ok, take);
            Attempts(c, o.shared) == Attempts(c, sh) + Unspent(o.at)
  {
    if ClaimAffects(sh.tables, i) {
      JobDrain.AttemptsUpdate(sh.tables.rows, ClaimSegment(sh.tables, i).rows, |c.pieces|, i);
    }
  }

  lemma UnspentFalls(c: Config, sh: Shared, at: Place, ok: bool, take: nat)
    requires !at.Claim?
    ensures (if at.Render? then 1 else 0) + Unspent(Turn(c, sh, at, ok, take).at) <= Unspent(at)
  {
  }

  lemma TurnCounts(c: Config, sh: Shared, at: Place, ok: bool, take: nat)
    requires PlaceOk(c, sh, at)
    ensures var o := Turn(c, sh, at, ok, take);
            (if at.Render? then 1 else 0) + Unspent(o.at) + Attempts(c, sh) <= Unspent(at) + Attempts(c, o.shared)
  {
    if at.Claim? {
      ClaimCounts(c, sh, at.seqNo, ok, take);
    } else {
      AttemptsKept(c, sh, at, ok, take);
      UnspentFalls(c, sh, at, ok, take);
    }
  }

  lemma StepSyntheses(c: Config, w: World, s: State, e: Event)
    requires LaneInv(c, w, s) && Enabled(s, e) && LaneEvent(w, s, e)
    ensures var s' := Apply(c, s, e);
            && |s'.processes| == 2
            && (if Synthesizes(s, e) then 1 else 0) + Unspent(Worker(s')) + Attempts(c, s.shared)
               <= Unspent(Worker(s)) + Attempts(c, s'.shared)
  {
    if e.Step? && !s.processes[e.p].at.Acknowledge? {
      var at := s.processes[e.p].at;
      assert ProcessOk(c, s.shared, s.processes[e.p]);
      if e.p == 1 {
        TurnCounts(c, s.shared, at, e.ok, e.take);
      } else {
        AttemptsKept(c, s.shared, at, e.ok, e.take);
      }
    }
  }

  lemma {:induction false} SynthesesCounted(c: Config, w: World, run: seq<State>, events: seq<Event>, k: nat)
    requires LaneRun(c, w, run, events) && k < |run|
    ensures |run[k].processes| == 2
    ensures Syntheses(run, events, k) + Unspent(Worker(run[k])) <= Attempts(c, run[k].shared)
  {
    if k > 0 {
      SynthesesCounted(c, w, run, events, k - 1);
      LaneRunKeeps(c, w, run, events, k - 1);
      StepSyntheses(c, w, run[k - 1], events[k - 1]);
    }
  }

  lemma ThreePerSegment(c: Config, w: World, s: State)
    requires LaneInv(c, w, s)
    ensures forall i | i in s.shared.tables.rows :: s.shared.tables.rows[i].attempts <= MaxSegmentAttempts
    ensures Attempts(c, s.shared) <= 3 * |c.pieces|
  {
    var rows := s.shared.tables.rows;
    forall i | i in rows
      ensures rows[i].attempts <= MaxSegmentAttempts
    {
      if Late(w, s) {
        assert RowFine(w, rows[i], i, Alive(StatusOf(s.shared)), Worker(s).FailRun?);
      }
    }
    JobDrain.AttemptsBound(rows, |c.pieces|);
  }

  /** In every crash-free interleaving of the two consumers: no segment is attempted more than three
      times and at most 3n syntheses are made; the run stops within a bound linear in the pieces; a
      job that is over ended completed exactly when every segment succeeds within three attempts and
      the merge succeeds, and failed otherwise; and when entries and handlers have run out, it is
      over. */
  lemma EndsAsForetold(c: Config, w: World, run: seq<State>, events: seq<Event>, k: nat)
    requires LaneRun(c, w, run, events) && k < |run|
    ensures forall i | i in run[k].shared.tables.rows :: run[k].shared.tables.rows[i].attempts <= MaxSegmentAttempts
    ensures Syntheses(run, events, k) <= 3 * |c.pieces|
    ensures k <= JobEntryWork(|c.pieces|) + RetryWork * 2 * |c.pieces|
    ensures StatusOf(run[k].shared).Terminal() ==>
              StatusOf(run[k].shared) == if w.Completes() then Completed else Failed
    ensures Drained(run[k]) ==> StatusOf(run[k].shared).Terminal()
  {
    LaneRunKeeps(c, w, run, events, k);
    LaneRunIsLive(c, w, run, events, k);
    SynthesesCounted(c, w, run, events, k);
    ThreePerSegment(c, w, run[k]);
    if Drained(run[k]) {
      DrainedMeansOver(c, run[k]);
    }
  }

  function Answer(w: World, at: Place): (ok: bool)
    ensures Answers(w, at, ok)
  {
    match at
    case ReadInput => w.inputReadable
    case SplitInput => w.inputSplits
    case ReadText(i, a) => w.textReadable(i, a)
    case SplitText(i, a) => w.textSplits(i, a)
    case Render(i, a) => w.synthesizes(i, a)
    case MergeKeys(_) => w.merges
    case _ => true
  }

  /** And they do run out: while they have not, one of the consumers can go on. */
  lemma LanesGoOn(w: World, s: State) returns (e: Event)
    requires |s.processes| == 2 && !Drained(s)
    ensures Enabled(s, e) && LaneEvent(w, s, e)
  {
    if p :| 0 <= p < |s.processes| && s.processes[p].Busy? {
      e := Step(p, Answer(w, s.processes[p].at), 0);
    } else if s.shared.jobStream > 0 {
      e := Deliver(0, JobEntry);
    } else {
      var i :| i in s.shared.segmentStream;
      e := Deliver(1, SegmentEntry(i));
    }
  }
}
