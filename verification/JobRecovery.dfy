/** Recovery of an interrupted job: once nothing crashes any more, every schedule runs out of
    work, and when the reconciler has re-queued the job the work can only run out because the
    job is over, whatever the engine answers. */
module JobRecovery {
  import opened Basics
  import opened JobTables
  import opened JobProtocol
  import opened JobSafety
  import opened JobRuns

  // A bound on the work left.

  const SegmentEntryWork := 17
  const RetryWork := 10

  function JobEntryWork(n: nat): nat {
    16 + 19 * n
  }

  /** The most steps a handler can still take, counting the entries it may publish. */
  function PlaceWork(n: nat, at: Place): nat {
    match at
    case LoadJob => 15 + 19 * n
    case Advance => 14 + 19 * n
    case ReadInput => 13 + 19 * n
    case SplitInput => 12 + 19 * n
    case CreateRow(i) => 11 + 18 * n + (if i <= n then n - i else 0)
    case SetTotal => 10 + 18 * n
    case Reload => 9 + 18 * n
    case FanOut(_) => 8 + 18 * n
    case Publish(todo) => 2 + 18 * |todo|
    case LoadForSegment(_) => 16
    case Claim(_) => 15
    case FindRow(_) => 14
    case ReadText(_, _) => 13
    case SplitText(_, _) => 12
    case Render(_, _) => 11
    case CompleteRow(_, _) => 10
    case CountLeft => 9
    case ReloadDone => 8
    case FailRow(_, _) => 10
    case Requeue(_) => 19
    case BeginMerge(_) => 7
    case ListKeys => 6
    case MergeKeys(_) => 5
    case CompleteRun(_) => 4
    case FailRun => 4
    case CleanUp => 3
    case Notify => 2
    case Acknowledge => 1
  }

  function ProcessWork(n: nat, p: Process): nat {
    if p.Idle? then 0 else PlaceWork(n, p.at)
  }

  function AllProcessWork(n: nat, procs: seq<Process>): nat {
    if procs == [] then 0 else ProcessWork(n, procs[0]) + AllProcessWork(n, procs[1..])
  }

  /** How often segment i may still be re-queued before its third attempt decides. */
  function RetriesLeft(rows: Rows, i: nat): nat {
    if i !in rows then 2
    else if rows[i].status.Done? then 0
    else
      var budget := if rows[i].status.Running? then 3 else 2;
      if rows[i].attempts <= budget then budget - rows[i].attempts else 0
  }

  function AllRetriesLeft(rows: Rows, n: nat): nat {
    if n == 0 then 0 else AllRetriesLeft(rows, n - 1) + RetriesLeft(rows, n - 1)
  }

  /** The part of the bound that a turn may change besides its own place. */
  function SharedWork(n: nat, sh: Shared): nat {
    SegmentEntryWork * |sh.segmentStream| + RetryWork * AllRetriesLeft(sh.tables.rows, n)
  }

  function WorkLeft(c: Config, s: State): nat {
    var n := |c.pieces|;
    AllProcessWork(n, s.processes) + SharedWork(n, s.shared) + JobEntryWork(n) * s.shared.jobStream
  }

  lemma {:induction false} ProcessWorkUpdate(n: nat, procs: seq<Process>, p: nat, proc: Process)
    requires p < |procs|
    ensures AllProcessWork(n, procs[p := proc]) + ProcessWork(n, procs[p])
         == AllProcessWork(n, procs) + ProcessWork(n, proc)
  {
    var procs' := procs[p := proc];
    if p == 0 {
      assert procs'[1..] == procs[1..];
    } else {
      ProcessWorkUpdate(n, procs[1..], p - 1, proc);
      assert procs'[1..] == procs[1..][p - 1 := proc];
    }
  }

  lemma {:induction false} RetriesSame(rows: Rows, rows': Rows, n: nat)
    requires forall i | 0 <= i < n :: RetriesLeft(rows', i) == RetriesLeft(rows, i)
    ensures AllRetriesLeft(rows', n) == AllRetriesLeft(rows, n)
  {
    if n > 0 { RetriesSame(rows, rows', n - 1); }
  }

  lemma {:induction false} RetriesUpdate(rows: Rows, rows': Rows, n: nat, i: nat)
    requires i < n && forall k | 0 <= k < n && k != i :: RetriesLeft(rows', k) == RetriesLeft(rows, k)
    ensures AllRetriesLeft(rows', n) + RetriesLeft(rows, i) == AllRetriesLeft(rows, n) + RetriesLeft(rows', i)
  {
    if i == n - 1 { RetriesSame(rows, rows', n - 1); } else { RetriesUpdate(rows, rows', n - 1, i); }
  }

  /** Every turn uses up some of the bound. */
  ghost predicate Pays(c: Config, sh: Shared, at: Place, o: Outcome) {
    var n := |c.pieces|;
    && o.shared.jobStream == sh.jobStream
    && PlaceWork(n, o.at) + SharedWork(n, o.shared) < PlaceWork(n, at) + SharedWork(n, sh)
  }

  lemma FullSize(c: Config, rows: Rows)
    requires Full(c, rows)
    ensures |rows| == |c.pieces|
  {
    assert rows.Keys == Below(|c.pieces|);
  }

  lemma RowsSameCost(sh: Shared, sh': Shared, n: nat)
    requires sh'.segmentStream == sh.segmentStream
    requires forall i | 0 <= i < n :: RetriesLeft(sh'.tables.rows, i) == RetriesLeft(sh.tables.rows, i)
    ensures SharedWork(n, sh') == SharedWork(n, sh)
  {
    RetriesSame(sh.tables.rows, sh'.tables.rows, n);
  }

  lemma EntryCost(sh: Shared, i: nat, n: nat)
    ensures SharedWork(n, Enqueue(sh, SegmentEntry(i))) == SharedWork(n, sh) + SegmentEntryWork
  {
    assert |Enqueue(sh, SegmentEntry(i)).segmentStream| == |sh.segmentStream| + 1;
  }

  /** A claim moves a row from "two re-queues left before a new attempt" to the same number
      within the attempt, so it costs nothing extra. */
  lemma ClaimCost(sh: Shared, i: nat, n: nat)
    requires ClaimAffects(sh.tables, i)
    ensures SharedWork(n, WithTables(sh, ClaimSegment(sh.tables, i))) == SharedWork(n, sh)
  {
    RowsSameCost(sh, WithTables(sh, ClaimSegment(sh.tables, i)), n);
  }

  lemma SegmentingPays(c: Config, sh: Shared, at: Place, ok: bool)
    requires PlaceOk(c, sh, at) && InSegmenting(at)
    ensures Pays(c, sh, at, SegmentingTurn(c, sh, at, ok))
  {
    RowsSameCost(sh, SegmentingTurn(c, sh, at, ok).shared, |c.pieces|);
  }

  lemma PublishPays(c: Config, sh: Shared, todo: seq<nat>)
    requires todo != []
    ensures Pays(c, sh, Publish(todo), Outcome(Enqueue(sh, SegmentEntry(todo[0])), Publish(todo[1..])))
  {
    EntryCost(sh, todo[0], |c.pieces|);
  }

  lemma ListingPays(c: Config, sh: Shared, loaded: Status)
    requires Full(c, sh.tables.rows)
    ensures Pays(c, sh, FanOut(loaded), FanOutTurn(sh, FanOut(loaded)))
  {
    FullSize(c, sh.tables.rows);
    assert |Todo(sh.tables.rows)| <= |c.pieces|;
  }

  lemma FanOutPays(c: Config, sh: Shared, at: Place)
    requires Full(c, sh.tables.rows) && InFanOut(at)
    ensures Pays(c, sh, at, FanOutTurn(sh, at))
  {
    match at
    case Reload => assert FanOutTurn(sh, at) == Outcome(sh, FanOut(sh.tables.job.status));
    case FanOut(loaded) => ListingPays(c, sh, loaded);
    case Publish(todo) =>
      if todo != [] { PublishPays(c, sh, todo); } else { assert FanOutTurn(sh, at) == Outcome(sh, Acknowledge); }
  }

  lemma AttemptPays(c: Config, sh: Shared, at: Place, ok: bool, take: nat)
    requires InAttempt(at)
    ensures Pays(c, sh, at, AttemptTurn(c, sh, at, ok, take))
  {
    var o := AttemptTurn(c, sh, at, ok, take);
    if at.Claim? {
      if ClaimAffects(sh.tables, at.seqNo) { ClaimCost(sh, at.seqNo, |c.pieces|); }
    } else {
      assert SharedWork(|c.pieces|, o.shared) == SharedWork(|c.pieces|, sh);
    }
  }

  lemma CompleteRowPays(c: Config, sh: Shared, i: nat, key: string)
    requires PlaceOk(c, sh, CompleteRow(i, key))
    ensures Pays(c, sh, CompleteRow(i, key), SettleTurn(sh, CompleteRow(i, key)))
  {
    RetriesUpdate(sh.tables.rows, SettleTurn(sh, CompleteRow(i, key)).shared.tables.rows, |c.pieces|, i);
  }

  lemma FailRowPays(c: Config, sh: Shared, i: nat, a: nat)
    requires PlaceOk(c, sh, FailRow(i, a))
    ensures Pays(c, sh, FailRow(i, a), SettleTurn(sh, FailRow(i, a)))
  {
    RetriesUpdate(sh.tables.rows, SettleTurn(sh, FailRow(i, a)).shared.tables.rows, |c.pieces|, i);
  }

  lemma SettlePays(c: Config, sh: Shared, at: Place)
    requires PlaceOk(c, sh, at) && InSettle(at)
    ensures Pays(c, sh, at, SettleTurn(sh, at))
  {
    match at
    case CompleteRow(i, key) => CompleteRowPays(c, sh, i, key);
    case FailRow(i, a) => FailRowPays(c, sh, i, a);
    case Requeue(i) => EntryCost(sh, i, |c.pieces|);
    case CountLeft => PlacePays(c, sh, sh, at, SettleTurn(sh, at).at);
    case ReloadDone => PlacePays(c, sh, sh, at, BeginMerge(sh.tables.job.status));
  }

  /** A step that leaves the rows and the streams alone pays with its place. */
  lemma PlacePays(c: Config, sh: Shared, sh': Shared, at: Place, at': Place)
    requires sh'.jobStream == sh.jobStream && sh'.segmentStream == sh.segmentStream
    requires sh'.tables.rows == sh.tables.rows && PlaceWork(|c.pieces|, at') < PlaceWork(|c.pieces|, at)
    ensures Pays(c, sh, at, Outcome(sh', at'))
  {
  }

  lemma ListKeysPays(c: Config, sh: Shared, ok: bool)
    ensures Pays(c, sh, ListKeys, MergeTurn(c, sh, ListKeys, ok))
  {
    if Mergeable(sh.tables.rows) {
      PlacePays(c, sh, sh, ListKeys, MergeKeys(Keys(sh.tables.rows)));
    } else {
      PlacePays(c, sh, sh, ListKeys, FailRun);
    }
  }

  lemma MergePays(c: Config, sh: Shared, at: Place, ok: bool)
    requires InMerge(at)
    ensures Pays(c, sh, at, MergeTurn(c, sh, at, ok))
  {
    if at.ListKeys? {
      ListKeysPays(c, sh, ok);
    } else {
      var o := MergeTurn(c, sh, at, ok);
      PlacePays(c, sh, o.shared, at, o.at);
    }
  }

  lemma ClosePays(c: Config, sh: Shared, at: Place, ok: bool)
    requires InClose(at) && !at.Acknowledge?
    ensures Pays(c, sh, at, CloseTurn(sh, at, ok))
  {
  }

  lemma TurnPays(c: Config, sh: Shared, at: Place, ok: bool, take: nat)
    requires PlaceOk(c, sh, at) && !at.Acknowledge?
    ensures Pays(c, sh, at, Turn(c, sh, at, ok, take))
  {
    if InSegmenting(at) { SegmentingPays(c, sh, at, ok); }
    else if InFanOut(at) { FanOutPays(c, sh, at); }
    else if InAttempt(at) { AttemptPays(c, sh, at, ok, take); }
    else if InSettle(at) { SettlePays(c, sh, at); }
    else if InMerge(at) { MergePays(c, sh, at, ok); }
    else { ClosePays(c, sh, at, ok); }
  }

  /** An event of a run in which nothing fails any more: a delivery or a step of a live process. */
  predicate Smooth(e: Event) {
    e.Deliver? || e.Step?
  }

  lemma DeliveryPays(c: Config, s: State, p: nat, entry: Entry)
    requires Enabled(s, Deliver(p, entry))
    ensures WorkLeft(c, Apply(c, s, Deliver(p, entry))) < WorkLeft(c, s)
  {
    var n := |c.pieces|;
    ProcessWorkUpdate(n, s.processes, p, Busy(entry, Start(entry)));
    if entry.JobEntry? {
      var j := s.shared.jobStream;
      assert JobEntryWork(n) * (j - 1) == JobEntryWork(n) * j - JobEntryWork(n);
    }
  }

  lemma SmoothPays(c: Config, s: State, e: Event)
    requires Inv(c, s) && Enabled(s, e) && Smooth(e)
    ensures WorkLeft(c, Apply(c, s, e)) < WorkLeft(c, s)
  {
    match e
    case Deliver(p, entry) => DeliveryPays(c, s, p, entry);
    case Step(p, ok, take) =>
      var proc := s.processes[p];
      assert ProcessOk(c, s.shared, proc);
      if proc.at.Acknowledge? {
        ProcessWorkUpdate(|c.pieces|, s.processes, p, Idle);
      } else {
        var o := Turn(c, s.shared, proc.at, ok, take);
        TurnPays(c, s.shared, proc.at, ok, take);
        ProcessWorkUpdate(|c.pieces|, s.processes, p, proc.(at := o.at));
      }
  }

  // Someone is always on the job.

  /** Places from which a handler will move a job of this status on by itself. */
  predicate Carries(status: Status, at: Place) {
    match status
    case Queued => at.LoadJob? || at.Advance?
    case Segmenting =>
      at.LoadJob? || at.ReadInput? || at.SplitInput? || at.CreateRow? || at.SetTotal? || at.FailRun?
    case Synthesizing => at.LoadJob? || at.Reload? || at.FanOut? || at.FailRun?
    case Merging =>
      || at.LoadJob? || at.Reload? || at.ReloadDone? || at == FanOut(Merging) || at == BeginMerge(Merging)
      || at.ListKeys? || at.MergeKeys? || at.CompleteRun? || at.FailRun?
    case _ => false
  }

  /** Places from which a handler will still bring segment i forward. */
  predicate WorksOn(at: Place, i: nat) {
    || Owned(at) == Some(i)
    || at == LoadForSegment(i) || at == Claim(i) || at == Requeue(i)
    || (at.Publish? && i in at.todo)
  }

  predicate Finishing(at: Place) {
    at.CountLeft? || at.ReloadDone? || at.BeginMerge?
  }

  ghost predicate Carried(s: State) {
    exists p | 0 <= p < |s.processes| ::
      s.processes[p].Busy? && Carries(s.shared.tables.job.status, s.processes[p].at)
  }

  ghost predicate RowCovered(s: State, i: nat) {
    i in s.shared.segmentStream
    || exists p | 0 <= p < |s.processes| :: s.processes[p].Busy? && WorksOn(s.processes[p].at, i)
  }

  ghost predicate Closing(s: State) {
    exists p | 0 <= p < |s.processes| :: s.processes[p].Busy? && Finishing(s.processes[p].at)
  }

  ghost predicate RowsCovered(c: Config, s: State) {
    && s.shared.tables.job.status.Synthesizing?
    && (forall i | i in s.shared.tables.rows && !s.shared.tables.rows[i].status.Done? :: RowCovered(s, i))
    && (AllDone(c, s.shared.tables) ==> Closing(s))
  }

  ghost predicate Covered(c: Config, s: State) {
    || s.shared.tables.job.status.Terminal()
    || s.shared.jobStream > 0
    || Carried(s)
    || RowsCovered(c, s)
  }

  ghost predicate OwnerAlive(s: State, i: nat) {
    exists p | 0 <= p < |s.processes| :: s.processes[p].Busy? && Owned(s.processes[p].at) == Some(i)
  }

  /** No row is left running by a process that died. */
  ghost predicate NoOrphan(s: State) {
    forall i: nat | Holds(s.shared.tables, i) :: OwnerAlive(s, i)
  }

  // One turn of one process.

  function StatusOf(sh: Shared): Status {
    sh.tables.job.status
  }

  lemma StatusChangeCarried(c: Config, sh: Shared, at: Place, ok: bool, take: nat)
    requires PlaceOk(c, sh, at)
    ensures var o := Turn(c, sh, at, ok, take);
            StatusOf(o.shared) != StatusOf(sh) ==> StatusOf(o.shared).Terminal() || Carries(StatusOf(o.shared), o.at)
  {
  }

  lemma NothingToPublish(c: Config, sh: Shared)
    ensures AllDone(c, sh.tables) ==> Todo(sh.tables.rows) == []
  {
    var todo := Todo(sh.tables.rows);
    assert |todo| > 0 ==> todo[0] in todo;
  }

  lemma EarlyCarrierStep(c: Config, sh: Shared, at: Place, ok: bool, take: nat)
    requires PlaceOk(c, sh, at) && Carries(StatusOf(sh), at) && StatusOf(sh).Rank() <= 1
    ensures var o := Turn(c, sh, at, ok, take);
            StatusOf(o.shared) == StatusOf(sh) ==> Carries(StatusOf(sh), o.at)
  {
  }

  lemma SynthesizingCarrierStep(c: Config, sh: Shared, at: Place, ok: bool, take: nat)
    requires PlaceOk(c, sh, at) && Carries(StatusOf(sh), at) && !at.FanOut? && StatusOf(sh).Synthesizing?
    ensures var o := Turn(c, sh, at, ok, take);
            StatusOf(o.shared) == StatusOf(sh) ==> Carries(StatusOf(sh), o.at)
  {
  }

  lemma MergingCarrierStep(c: Config, sh: Shared, at: Place, ok: bool, take: nat)
    requires SharedOk(c, sh) && PlaceOk(c, sh, at) && Carries(StatusOf(sh), at) && !at.FanOut?
    requires StatusOf(sh).Merging?
    ensures var o := Turn(c, sh, at, ok, take);
            StatusOf(o.shared) == StatusOf(sh) ==> Carries(StatusOf(sh), o.at)
  {
  }

  lemma CarrierStep(c: Config, sh: Shared, at: Place, ok: bool, take: nat)
    requires SharedOk(c, sh) && PlaceOk(c, sh, at) && Carries(StatusOf(sh), at) && !at.FanOut?
    ensures var o := Turn(c, sh, at, ok, take);
            StatusOf(o.shared) == StatusOf(sh) ==> Carries(StatusOf(sh), o.at)
  {
    match StatusOf(sh)
    case Queued => EarlyCarrierStep(c, sh, at, ok, take);
    case Segmenting => EarlyCarrierStep(c, sh, at, ok, take);
    case Synthesizing => SynthesizingCarrierStep(c, sh, at, ok, take);
    case Merging => MergingCarrierStep(c, sh, at, ok, take);
    case _ =>
  }

  lemma CarrierListing(c: Config, sh: Shared, at: Place)
    requires SharedOk(c, sh) && PlaceOk(c, sh, at) && Carries(StatusOf(sh), at) && at.FanOut?
    ensures var o, todo := FanOutTurn(sh, at), Todo(sh.tables.rows);
            && o.shared == sh
            && (StatusOf(sh).Merging? ==> Carries(Merging, o.at))
            && (StatusOf(sh).Synthesizing? ==> if todo == [] then Finishing(o.at) else o.at == Publish(todo))
  {
    NothingToPublish(c, sh);
  }

  lemma WorkerStep(c: Config, sh: Shared, at: Place, ok: bool, take: nat, i: nat)
    requires PlaceOk(c, sh, at) && WorksOn(at, i) && StatusOf(sh).Synthesizing?
    ensures var o := Turn(c, sh, at, ok, take);
            || WorksOn(o.at, i) || i in o.shared.segmentStream || o.at.FailRun?
            || (at == Claim(i) && o.shared == sh && !ClaimAffects(sh.tables, i))
            || (at.CompleteRow? && i in o.shared.tables.rows && o.shared.tables.rows[i].status.Done?)
  {
  }

  // One event of a crash-free run.

  lemma {:induction false} OrphanFreeStep(c: Config, s: State, p: nat, ok: bool, take: nat)
    requires Inv(c, s) && NoOrphan(s) && Enabled(s, Step(p, ok, take))
    ensures NoOrphan(Apply(c, s, Step(p, ok, take)))
  {
    var s' := Apply(c, s, Step(p, ok, take));
    var at := s.processes[p].at;
    assert ProcessOk(c, s.shared, s.processes[p]);
    forall i: nat | Holds(s'.shared.tables, i) ensures OwnerAlive(s', i) {
      if at.Acknowledge? || Holds(s.shared.tables, i) {
        var q :| 0 <= q < |s.processes| && s.processes[q].Busy? && Owned(s.processes[q].at) == Some(i);
        assert s'.processes[q].Busy?;
        if q != p {
          assert s'.processes[q] == s.processes[q];
        } else {
          OwnershipKept(c, s.shared, at, ok, take, i);
        }
      } else {
        OwnershipGained(c, s.shared, at, ok, take, i);
        assert s'.processes[p].Busy?;
      }
    }
  }

  lemma OwnershipKept(c: Config, sh: Shared, at: Place, ok: bool, take: nat, i: nat)
    requires PlaceOk(c, sh, at) && Owned(at) == Some(i) && Holds(Turn(c, sh, at, ok, take).shared.tables, i)
    ensures Owned(Turn(c, sh, at, ok, take).at) == Some(i)
  {
  }

  lemma OwnershipGained(c: Config, sh: Shared, at: Place, ok: bool, take: nat, i: nat)
    requires !Holds(sh.tables, i) && Holds(Turn(c, sh, at, ok, take).shared.tables, i)
    ensures Owned(Turn(c, sh, at, ok, take).at) == Some(i)
  {
    if at.Claim? {
      assert AttemptTurn(c, sh, at, ok, take).at == FindRow(at.seqNo);
    } else if !TouchesRows(at) {
      RowsChange(c, sh, at, ok, take);
    }
  }

  lemma MergeRows(c: Config, sh: Shared, at: Place, ok: bool)
    requires InMerge(at)
    ensures MergeTurn(c, sh, at, ok).shared.tables.rows == sh.tables.rows
  {
  }

  lemma FanOutRows(sh: Shared, at: Place)
    requires InFanOut(at)
    ensures FanOutTurn(sh, at).shared.tables.rows == sh.tables.rows
  {
  }

  predicate TouchesRows(at: Place) {
    at.CreateRow? || at.Claim? || at.CompleteRow? || at.FailRow?
  }

  lemma AttemptRows(c: Config, sh: Shared, at: Place, ok: bool, take: nat)
    requires InAttempt(at) && !TouchesRows(at)
    ensures AttemptTurn(c, sh, at, ok, take).shared.tables.rows == sh.tables.rows
  {
  }

  lemma OtherRows(c: Config, sh: Shared, at: Place, ok: bool)
    requires !TouchesRows(at)
    ensures InSegmenting(at) ==> SegmentingTurn(c, sh, at, ok).shared.tables.rows == sh.tables.rows
    ensures InSettle(at) ==> SettleTurn(sh, at).shared.tables.rows == sh.tables.rows
    ensures InClose(at) ==> CloseTurn(sh, at, ok).shared.tables.rows == sh.tables.rows
  {
  }

  /** Only inserting, claiming, completing and failing a row changes the rows. */
  lemma RowsChange(c: Config, sh: Shared, at: Place, ok: bool, take: nat)
    requires !TouchesRows(at)
    ensures Turn(c, sh, at, ok, take).shared.tables.rows == sh.tables.rows
  {
    if InMerge(at) {
      MergeRows(c, sh, at, ok);
    } else if InFanOut(at) {
      FanOutRows(sh, at);
    } else if InAttempt(at) {
      AttemptRows(c, sh, at, ok, take);
    } else {
      OtherRows(c, sh, at, ok);
    }
  }

  lemma StillCovered(s: State, s': State, p: nat, i: nat)
    requires RowCovered(s, i) && p < |s.processes| == |s'.processes|
    requires forall q | 0 <= q < |s.processes| && q != p :: s'.processes[q] == s.processes[q]
    requires s.shared.segmentStream <= s'.shared.segmentStream
    ensures RowCovered(s', i) || (s.processes[p].Busy? && WorksOn(s.processes[p].at, i))
  {
    if i !in s.shared.segmentStream {
      var q :| 0 <= q < |s.processes| && s.processes[q].Busy? && WorksOn(s.processes[q].at, i);
      assert q != p ==> s'.processes[q].Busy? && WorksOn(s'.processes[q].at, i);
    }
  }

  /** A turn that leaves the job synthesizing keeps every unfinished segment covered. */
  lemma RowsCoveredStep(c: Config, s: State, p: nat, ok: bool, take: nat)
    requires KeysOk(c) && Inv(c, s) && NoOrphan(s) && RowsCovered(c, s) && Enabled(s, Step(p, ok, take))
    requires !s.processes[p].at.Acknowledge?
    ensures var s' := Apply(c, s, Step(p, ok, take));
            StatusOf(s'.shared).Synthesizing? ==> Carried(s') || RowsCovered(c, s')
  {
    var e := Step(p, ok, take);
    var s' := Apply(c, s, e);
    var at := s.processes[p].at;
    var o := Turn(c, s.shared, at, ok, take);
    assert ProcessOk(c, s.shared, s.processes[p]);
    EventKeeps(c, s, e);
    StreamGrows(c, s.shared, at, ok, take);
    if StatusOf(s'.shared).Synthesizing? {
      if o.at.FailRun? {
        assert s'.processes[p].Busy? && Carries(StatusOf(s'.shared), s'.processes[p].at);
      } else {
        forall i | i in s'.shared.tables.rows && !s'.shared.tables.rows[i].status.Done? ensures RowCovered(s', i) {
          assert Full(c, s.shared.tables.rows) && Full(c, s'.shared.tables.rows);
          RowStillCovered(c, s, p, ok, take, i);
        }
        if AllDone(c, s'.shared.tables) {
          ClosingKept(c, s, p, ok, take);
        }
      }
    }
  }

  lemma StreamGrows(c: Config, sh: Shared, at: Place, ok: bool, take: nat)
    ensures sh.segmentStream <= Turn(c, sh, at, ok, take).shared.segmentStream
    ensures sh.jobStream == Turn(c, sh, at, ok, take).shared.jobStream
  {
  }

  lemma RowStillCovered(c: Config, s: State, p: nat, ok: bool, take: nat, i: nat)
    requires NoOrphan(s) && RowsCovered(c, s) && Enabled(s, Step(p, ok, take))
    requires PlaceOk(c, s.shared, s.processes[p].at) && !s.processes[p].at.Acknowledge?
    requires i in s.shared.tables.rows && !s.shared.tables.rows[i].status.Done?
    requires var s' := Apply(c, s, Step(p, ok, take));
             !s'.processes[p].at.FailRun? && i in s'.shared.tables.rows && !s'.shared.tables.rows[i].status.Done?
    ensures RowCovered(Apply(c, s, Step(p, ok, take)), i)
  {
    var s' := Apply(c, s, Step(p, ok, take));
    var at := s.processes[p].at;
    StreamGrows(c, s.shared, at, ok, take);
    StillCovered(s, s', p, i);
    if WorksOn(at, i) {
      WorkerStep(c, s.shared, at, ok, take, i);
      if WorksOn(s'.processes[p].at, i) {
        assert s'.processes[p].Busy?;
      } else if at == Claim(i) {
        assert Holds(s.shared.tables, i);
        var q :| 0 <= q < |s.processes| && s.processes[q].Busy? && Owned(s.processes[q].at) == Some(i);
        assert s'.processes[q].Busy? && WorksOn(s'.processes[q].at, i);
      }
    }
  }

  lemma FinisherStays(c: Config, sh: Shared, at: Place, ok: bool, take: nat)
    requires PlaceOk(c, sh, at) && StatusOf(sh).Synthesizing? && Finishing(at)
    requires StatusOf(Turn(c, sh, at, ok, take).shared).Synthesizing?
    requires AllDone(c, Turn(c, sh, at, ok, take).shared.tables)
    ensures Finishing(Turn(c, sh, at, ok, take).at)
  {
    if at.CountLeft? {
      assert forall i | i in sh.tables.rows :: i !in UnfinishedRows(sh.tables.rows);
    }
  }

  /** The step that brings in the last segment goes on to count what is left. */
  lemma FinisherArises(c: Config, sh: Shared, at: Place, ok: bool, take: nat)
    requires PlaceOk(c, sh, at) && Started(c, sh.tables) && !AllDone(c, sh.tables)
    requires AllDone(c, Turn(c, sh, at, ok, take).shared.tables)
    ensures Finishing(Turn(c, sh, at, ok, take).at)
  {
    var i :| i in sh.tables.rows && !sh.tables.rows[i].status.Done?;
    assert Turn(c, sh, at, ok, take).shared.tables.rows[i].status.Done?;
    if !TouchesRows(at) {
      RowsChange(c, sh, at, ok, take);
    }
  }

  lemma ClosingKept(c: Config, s: State, p: nat, ok: bool, take: nat)
    requires KeysOk(c) && Inv(c, s) && RowsCovered(c, s) && Enabled(s, Step(p, ok, take))
    requires !s.processes[p].at.Acknowledge?
    requires AllDone(c, Apply(c, s, Step(p, ok, take)).shared.tables)
    requires StatusOf(Apply(c, s, Step(p, ok, take)).shared).Synthesizing?
    ensures Closing(Apply(c, s, Step(p, ok, take)))
  {
    var s' := Apply(c, s, Step(p, ok, take));
    assert ProcessOk(c, s.shared, s.processes[p]);
    assert s'.processes[p].Busy?;
    if Finishing(s.processes[p].at) {
      FinisherStays(c, s.shared, s.processes[p].at, ok, take);
    } else if !AllDone(c, s.shared.tables) {
      FinisherArises(c, s.shared, s.processes[p].at, ok, take);
    } else {
      var q :| 0 <= q < |s.processes| && s.processes[q].Busy? && Finishing(s.processes[q].at);
      assert s'.processes[q].Busy? && Finishing(s'.processes[q].at);
    }
  }

  lemma CarriedStep(c: Config, s: State, p: nat, ok: bool, take: nat)
    requires Inv(c, s) && Carried(s) && Enabled(s, Step(p, ok, take)) && !s.processes[p].at.Acknowledge?
    ensures var s' := Apply(c, s, Step(p, ok, take));
            StatusOf(s'.shared) == StatusOf(s.shared) ==> Carried(s') || RowsCovered(c, s')
  {
    var s' := Apply(c, s, Step(p, ok, take));
    var q :| 0 <= q < |s.processes| && s.processes[q].Busy? && Carries(StatusOf(s.shared), s.processes[q].at);
    if StatusOf(s'.shared) == StatusOf(s.shared) {
      assert s'.processes[q].Busy?;
      if q == p {
        assert ProcessOk(c, s.shared, s.processes[p]);
        if s.processes[p].at.FanOut? {
          CarrierListing(c, s.shared, s.processes[p].at);
          if StatusOf(s.shared).Synthesizing? { PublishedRowsCovered(c, s', p); }
        } else {
          CarrierStep(c, s.shared, s.processes[p].at, ok, take);
        }
      } else {
        assert s'.processes[q] == s.processes[q];
      }
    }
  }

  lemma PublishedRowsCovered(c: Config, s: State, p: nat)
    requires StatusOf(s.shared).Synthesizing? && p < |s.processes| && s.processes[p].Busy?
    requires var todo := Todo(s.shared.tables.rows);
             if todo == [] then Finishing(s.processes[p].at) else s.processes[p].at == Publish(todo)
    ensures RowsCovered(c, s)
  {
    var todo := Todo(s.shared.tables.rows);
    assert todo != [] ==> todo[0] in todo;
    forall i | i in s.shared.tables.rows && !s.shared.tables.rows[i].status.Done? ensures RowCovered(s, i) {
      assert i in todo;
      assert WorksOn(s.processes[p].at, i);
    }
  }

  lemma AcknowledgeStep(c: Config, s: State, p: nat, ok: bool, take: nat)
    requires Covered(c, s) && Enabled(s, Step(p, ok, take)) && s.processes[p].at.Acknowledge?
    ensures Covered(c, Apply(c, s, Step(p, ok, take)))
  {
    var s' := Apply(c, s, Step(p, ok, take));
    if Carried(s) {
      var q :| 0 <= q < |s.processes| && s.processes[q].Busy? && Carries(StatusOf(s.shared), s.processes[q].at);
      assert !Carries(StatusOf(s.shared), Acknowledge);
      assert s.processes[p].at == Acknowledge;
      assert q != p;
      assert s'.processes[q] == s.processes[q];
      assert Carried(s');
    } else if RowsCovered(c, s) {
      forall i | i in s.shared.tables.rows && !s.shared.tables.rows[i].status.Done? ensures RowCovered(s', i) {
        StillCovered(s, s', p, i);
      }
      if AllDone(c, s.shared.tables) {
        var q :| 0 <= q < |s.processes| && s.processes[q].Busy? && Finishing(s.processes[q].at);
        assert s'.processes[q].Busy? && Finishing(s'.processes[q].at);
      }
    }
  }

  lemma CoveredStep(c: Config, s: State, p: nat, ok: bool, take: nat)
    requires KeysOk(c) && Inv(c, s) && NoOrphan(s) && Covered(c, s) && Enabled(s, Step(p, ok, take))
    ensures Covered(c, Apply(c, s, Step(p, ok, take)))
  {
    var s' := Apply(c, s, Step(p, ok, take));
    var at := s.processes[p].at;
    if at.Acknowledge? {
      AcknowledgeStep(c, s, p, ok, take);
    } else {
      assert ProcessOk(c, s.shared, s.processes[p]);
      assert s'.processes[p].Busy?;
      StatusChangeCarried(c, s.shared, at, ok, take);
      StreamGrows(c, s.shared, at, ok, take);
      EventKeeps(c, s, Step(p, ok, take));
      if StatusOf(s'.shared) == StatusOf(s.shared) {
        if Carried(s) {
          CarriedStep(c, s, p, ok, take);
        } else if RowsCovered(c, s) {
          RowsCoveredStep(c, s, p, ok, take);
        }
      }
    }
  }

  lemma CoveredDelivery(c: Config, s: State, p: nat, entry: Entry)
    requires Covered(c, s) && Enabled(s, Deliver(p, entry))
    ensures Covered(c, Apply(c, s, Deliver(p, entry)))
  {
    var s' := Apply(c, s, Deliver(p, entry));
    assert s' == State(Dequeue(s.shared, entry), s.processes[p := Busy(entry, Start(entry))]);
    assert s'.processes[p].Busy? && s'.shared.tables == s.shared.tables;
    assert forall q | 0 <= q < |s.processes| && s.processes[q].Busy? :: s'.processes[q] == s.processes[q];
    if entry.JobEntry? && !StatusOf(s.shared).Terminal() {
      assert Carries(StatusOf(s'.shared), s'.processes[p].at);
    } else if Carried(s) {
      var q :| 0 <= q < |s.processes| && s.processes[q].Busy? && Carries(StatusOf(s.shared), s.processes[q].at);
      assert q != p && s'.processes[q] == s.processes[q];
      assert Carried(s');
    } else if RowsCovered(c, s) {
      forall i | i in s.shared.tables.rows && !s.shared.tables.rows[i].status.Done? ensures RowCovered(s', i) {
        if i in s.shared.segmentStream {
          assert entry == SegmentEntry(i) ==> WorksOn(s'.processes[p].at, i);
        } else {
          var q :| 0 <= q < |s.processes| && s.processes[q].Busy? && WorksOn(s.processes[q].at, i);
          assert s'.processes[q].Busy? && WorksOn(s'.processes[q].at, i);
        }
      }
      if AllDone(c, s.shared.tables) {
        var q :| 0 <= q < |s.processes| && s.processes[q].Busy? && Finishing(s.processes[q].at);
        assert s'.processes[q].Busy? && Finishing(s'.processes[q].at);
      }
    }
  }

  lemma OrphanFreeDelivery(c: Config, s: State, p: nat, entry: Entry)
    requires NoOrphan(s) && Enabled(s, Deliver(p, entry))
    ensures NoOrphan(Apply(c, s, Deliver(p, entry)))
  {
    var s' := Apply(c, s, Deliver(p, entry));
    assert s' == State(Dequeue(s.shared, entry), s.processes[p := Busy(entry, Start(entry))]);
    forall i: nat | Holds(s'.shared.tables, i) ensures OwnerAlive(s', i) {
      assert Holds(s.shared.tables, i);
      var q :| 0 <= q < |s.processes| && s.processes[q].Busy? && Owned(s.processes[q].at) == Some(i);
      assert s'.processes[q].Busy? && Owned(s'.processes[q].at) == Some(i);
    }
  }

  /** What a crash-free continuation keeps. */
  ghost predicate Live(c: Config, s: State) {
    KeysOk(c) && Inv(c, s) && NoOrphan(s) && Covered(c, s)
  }

  lemma SmoothKeeps(c: Config, s: State, e: Event)
    requires Live(c, s) && Enabled(s, e) && Smooth(e)
    ensures Live(c, Apply(c, s, e)) && WorkLeft(c, Apply(c, s, e)) < WorkLeft(c, s)
  {
    EventKeeps(c, s, e);
    SmoothPays(c, s, e);
    match e
    case Deliver(p, entry) =>
      CoveredDelivery(c, s, p, entry);
      OrphanFreeDelivery(c, s, p, entry);
    case Step(p, ok, take) =>
      CoveredStep(c, s, p, ok, take);
      OrphanFreeStep(c, s, p, ok, take);
  }

  // The promises.

  predicate Quiet(s: State) {
    forall p | 0 <= p < |s.processes| :: s.processes[p].Idle?
  }

  predicate Drained(s: State) {
    Quiet(s) && s.shared.jobStream == 0 && s.shared.segmentStream == multiset{}
  }

  ghost predicate SmoothRun(c: Config, run: seq<State>, events: seq<Event>) {
    IsRun(c, run, events) && forall k | 0 <= k < |events| :: Smooth(events[k])
  }

  lemma DrainedMeansOver(c: Config, s: State)
    requires Live(c, s) && Drained(s)
    ensures StatusOf(s.shared).Terminal()
  {
    assert forall i: nat :: !RowCovered(s, i);
    assert s.shared.tables.job.status.Synthesizing? ==> Started(c, s.shared.tables);
  }

  lemma {:induction false} SmoothRunKeeps(c: Config, run: seq<State>, events: seq<Event>, k: nat)
    requires SmoothRun(c, run, events) && Live(c, run[0]) && k < |run|
    ensures Live(c, run[k]) && WorkLeft(c, run[k]) + k <= WorkLeft(c, run[0])
  {
    if k > 0 {
      SmoothRunKeeps(c, run, events, k - 1);
      var s, e := run[k - 1], events[k - 1];
      assert Smooth(e) && Enabled(s, e) && run[k] == Apply(c, s, e);
      SmoothKeeps(c, s, e);
    }
  }

  /** After any history at all, if nothing is running, no row was left running and the job is
      not over, then one re-queue is enough: every crash-free schedule from there stops within
      the stated number of steps, and when no entry and no handler is left the job is over. */
  lemma Recovery(c: Config, run: seq<State>, events: seq<Event>, tail: seq<State>, smooth: seq<Event>)
    requires JobRun(c, run, events) && SmoothRun(c, tail, smooth)
    requires var s := run[|run| - 1];
             Quiet(s) && (forall i: nat :: !Holds(s.shared.tables, i)) && tail[0] == Apply(c, s, Reconcile)
    ensures |smooth| <= JobEntryWork(|c.pieces|) * tail[0].shared.jobStream
                        + SegmentEntryWork * |tail[0].shared.segmentStream|
                        + RetryWork * AllRetriesLeft(tail[0].shared.tables.rows, |c.pieces|)
    ensures Drained(tail[|tail| - 1]) ==> StatusOf(tail[|tail| - 1].shared).Terminal()
  {
    var s := run[|run| - 1];
    RunKeeps(c, run, events, |run| - 1);
    EventKeeps(c, s, Reconcile);
    assert Live(c, tail[0]);
    QuietWork(|c.pieces|, tail[0].processes);
    SmoothRunKeeps(c, tail, smooth, |tail| - 1);
    if Drained(tail[|tail| - 1]) {
      DrainedMeansOver(c, tail[|tail| - 1]);
    }
  }

  lemma {:induction false} QuietWork(n: nat, procs: seq<Process>)
    requires forall p | 0 <= p < |procs| :: procs[p].Idle?
    ensures AllProcessWork(n, procs) == 0
  {
    if procs != [] { QuietWork(n, procs[1..]); }
  }

  /** Work can always go on: with at least one consumer, a state that is not drained has an
      enabled crash-free event, so every schedule can be driven to the end. */
  lemma {:induction false} CanDrain(c: Config, s: State) returns (run: seq<State>, events: seq<Event>)
    requires Live(c, s) && |s.processes| > 0
    ensures SmoothRun(c, run, events) && run[0] == s
    ensures Drained(run[|run| - 1]) && StatusOf(run[|run| - 1].shared).Terminal()
    decreases WorkLeft(c, s)
  {
    if Drained(s) {
      DrainedMeansOver(c, s);
      run, events := Unmoved(c, s);
    } else {
      var e, s' := LiveStep(c, s);
      run, events := CanDrain(c, s');
      run, events := Prepend(c, s, e, run, events);
    }
  }

  lemma Unmoved(c: Config, s: State) returns (run: seq<State>, events: seq<Event>)
    ensures SmoothRun(c, run, events) && run[0] == s == run[|run| - 1]
  {
    run, events := [s], [];
  }

  lemma LiveStep(c: Config, s: State) returns (e: Event, s': State)
    requires Live(c, s) && |s.processes| > 0 && !Drained(s)
    ensures Enabled(s, e) && Smooth(e) && s' == Apply(c, s, e)
    ensures Live(c, s') && |s'.processes| > 0 && WorkLeft(c, s') < WorkLeft(c, s)
  {
    e := NextEvent(s);
    s' := Apply(c, s, e);
    SmoothKeeps(c, s, e);
  }

  lemma Prepend(c: Config, s: State, e: Event, rest: seq<State>, more: seq<Event>)
    returns (run: seq<State>, events: seq<Event>)
    requires Enabled(s, e) && Smooth(e) && SmoothRun(c, rest, more) && rest[0] == Apply(c, s, e)
    ensures SmoothRun(c, run, events) && run[0] == s && run[|run| - 1] == rest[|rest| - 1]
  {
    run, events := [s] + rest, [e] + more;
    forall k | 0 <= k < |events|
      ensures Enabled(run[k], events[k]) && run[k + 1] == Apply(c, run[k], events[k]) && Smooth(events[k])
    {
      assert k > 0 ==> run[k] == rest[k - 1] && run[k + 1] == rest[k] && events[k] == more[k - 1];
    }
  }

  lemma NextEvent(s: State) returns (e: Event)
    requires !Drained(s) && |s.processes| > 0
    ensures Enabled(s, e) && Smooth(e) && (e.Step? ==> e.ok && e.take == 0)
  {
    if p :| 0 <= p < |s.processes| && s.processes[p].Busy? {
      e := Step(p, true, 0);
    } else if s.shared.jobStream > 0 {
      e := Deliver(0, JobEntry);
    } else {
      var i :| i in s.shared.segmentStream;
      e := Deliver(0, SegmentEntry(i));
    }
  }

  // Why recovery asks that no row was left running: nothing ever resets one.

  predicate NotOwned(p: Process, i: nat) {
    p.Busy? ==> Owned(p.at) != Some(i)
  }

  ghost predicate Orphan(s: State, i: nat) {
    Holds(s.shared.tables, i) && forall p | 0 <= p < |s.processes| :: NotOwned(s.processes[p], i)
  }

  lemma OrphanTurn(c: Config, sh: Shared, at: Place, ok: bool, take: nat, i: nat)
    requires KeysOk(c) && SharedOk(c, sh) && PlaceOk(c, sh, at) && Holds(sh.tables, i) && Owned(at) != Some(i)
    ensures var o := Turn(c, sh, at, ok, take); Holds(o.shared.tables, i) && Owned(o.at) != Some(i)
  {
    TurnKeeps(c, sh, at, ok, take);
  }

  lemma OrphanUnaffected(s: State, s': State, i: nat)
    requires Orphan(s, i) && s'.shared.tables.rows == s.shared.tables.rows
    requires |s'.processes| == |s.processes|
    requires forall q | 0 <= q < |s.processes| :: s'.processes[q] == s.processes[q] || NotOwned(s'.processes[q], i)
    ensures Orphan(s', i)
  {
    forall q | 0 <= q < |s.processes| ensures NotOwned(s'.processes[q], i) {
      assert NotOwned(s.processes[q], i);
    }
  }

  lemma OrphanSurvivesStep(c: Config, s: State, e: Event, i: nat)
    requires KeysOk(c) && Inv(c, s) && Enabled(s, e) && Orphan(s, i) && e.Step?
    ensures Orphan(Apply(c, s, e), i)
  {
    var proc := s.processes[e.p];
    assert ProcessOk(c, s.shared, proc) && NotOwned(proc, i);
    OrphanTurn(c, s.shared, proc.at, e.ok, e.take, i);
    var o := Turn(c, s.shared, proc.at, e.ok, e.take);
    assert proc.at.Acknowledge? || Apply(c, s, e) == State(o.shared, s.processes[e.p := proc.(at := o.at)]);
  }

  lemma OrphanSurvivesMove(c: Config, s: State, e: Event, i: nat)
    requires Enabled(s, e) && Orphan(s, i) && (e.Deliver? || e.Crash? || e.GiveUp?)
    ensures Orphan(Apply(c, s, e), i)
  {
    var proc := if e.Deliver? then Busy(e.entry, Start(e.entry))
    else if e.Crash? then Idle else Busy(s.processes[e.p].entry, Acknowledge);
    assert Apply(c, s, e).processes == s.processes[e.p := proc];
    OrphanUnaffected(s, Apply(c, s, e), i);
  }

  lemma OrphanSurvivesOutside(c: Config, s: State, e: Event, i: nat)
    requires Enabled(s, e) && Orphan(s, i) && (e.Redeliver? || e.Lose? || e.Reconcile? || e.Cancel?)
    ensures Orphan(Apply(c, s, e), i)
  {
    assert Apply(c, s, e).processes == s.processes;
    OrphanUnaffected(s, Apply(c, s, e), i);
  }

  lemma OrphanStays(c: Config, s: State, e: Event, i: nat)
    requires KeysOk(c) && Inv(c, s) && Enabled(s, e) && Orphan(s, i)
    ensures Orphan(Apply(c, s, e), i)
  {
    if e.Step? {
      OrphanSurvivesStep(c, s, e, i);
    } else if e.Deliver? || e.Crash? || e.GiveUp? {
      OrphanSurvivesMove(c, s, e, i);
    } else {
      OrphanSurvivesOutside(c, s, e, i);
    }
  }

  /** A segment whose claimant died between claim and completion blocks its job for good: in
      every continuation of every run, with any number of re-queues, the row stays running and
      the job never merges or completes. */
  lemma {:induction false} OrphanBlocks(c: Config, run: seq<State>, events: seq<Event>, j: nat, k: nat, i: nat)
    requires JobRun(c, run, events) && j <= k < |run| && Orphan(run[j], i)
    ensures Orphan(run[k], i)
    ensures !StatusOf(run[k].shared).Merging? && !StatusOf(run[k].shared).Completed?
  {
    if j < k {
      OrphanBlocks(c, run, events, j, k - 1, i);
      RunKeeps(c, run, events, k - 1);
      OrphanStays(c, run[k - 1], events[k - 1], i);
    }
    RunKeeps(c, run, events, k);
    NotAllDone(c, run[k].shared, i);
  }

  lemma NotAllDone(c: Config, sh: Shared, i: nat)
    requires SharedOk(c, sh) && Holds(sh.tables, i)
    ensures !StatusOf(sh).Merging? && !StatusOf(sh).Completed?
  {
    assert !AllDone(c, sh.tables);
  }
}
