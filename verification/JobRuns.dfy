/** From one turn to whole runs of the job protocol: the invariant, and what it promises in
    every interleaving of any number of orchestrators with crashes, lost and duplicated
    entries, re-queues and cancels. */
module JobRuns {
  import opened Basics
  import opened JobTables
  import opened JobProtocol
  import opened JobSafety

  lemma TurnKeeps(c: Config, sh: Shared, at: Place, ok: bool, take: nat)
    requires KeysOk(c) && SharedOk(c, sh) && PlaceOk(c, sh, at)
    ensures TurnOk(c, sh, at, Turn(c, sh, at, ok, take))
  {
    if InSegmenting(at) { SegmentingTurnKeeps(c, sh, at, ok); }
    else if InFanOut(at) { FanOutTurnKeeps(c, sh, at); }
    else if InAttempt(at) { AttemptTurnKeeps(c, sh, at, ok, take); }
    else if InSettle(at) { SettleTurnKeeps(c, sh, at); }
    else if InMerge(at) { MergeTurnKeeps(c, sh, at, ok); }
    else { CloseTurnKeeps(c, sh, at, ok); }
  }

  lemma StartedStays(c: Config, sh: Shared, sh': Shared)
    requires Evolves(c, sh, sh')
    ensures Started(c, sh.tables) ==> Started(c, sh'.tables)
    ensures AllDone(c, sh.tables) ==> AllDone(c, sh'.tables)
    ensures !sh.tables.job.status.Queued? ==> !sh'.tables.job.status.Queued?
    ensures MergeReached(sh.tables) ==> MergeReached(sh'.tables)
    ensures sh.tables.job.status.Terminal() ==> sh'.tables.job.status.Terminal()
  {
  }

  /** The claimed row of a process, and its object, are as they were. */
  predicate ClaimKept(c: Config, sh: Shared, sh': Shared, at: Place) {
    Owned(at).Some? ==>
      var i := Owned(at).value;
      && i in sh.tables.rows && i in sh'.tables.rows
      && sh'.tables.rows[i] == sh.tables.rows[i] && SameObject(c, sh, sh', i)
  }

  /** What a process relies on survives the steps of the others. */
  lemma PlaceStable(c: Config, sh: Shared, sh': Shared, at: Place)
    requires PlaceOk(c, sh, at) && Evolves(c, sh, sh') && ClaimKept(c, sh, sh', at)
    ensures PlaceOk(c, sh', at)
  {
    StartedStays(c, sh, sh');
    if at.CompleteRun? {
      MergedStays(c, sh, sh', sh.output.value);
    }
  }

  lemma OthersStable(c: Config, sh: Shared, sh': Shared, procs: seq<Process>, q: nat, own: Option<nat>)
    requires Evolves(c, sh, sh') && LeavesOthers(c, sh, sh', own)
    requires q < |procs| && ProcessOk(c, sh, procs[q])
    requires procs[q].Busy? && Owned(procs[q].at).Some? ==> Owned(procs[q].at) != own
    ensures ProcessOk(c, sh', procs[q])
  {
    if procs[q].Busy? {
      StartedStays(c, sh, sh');
      assert Owned(procs[q].at).Some? ==> Holds(sh.tables, Owned(procs[q].at).value);
      PlaceStable(c, sh, sh', procs[q].at);
    }
  }

  lemma StepKeeps(c: Config, s: State, p: nat, ok: bool, take: nat)
    requires KeysOk(c) && Inv(c, s) && Enabled(s, Step(p, ok, take))
    ensures Inv(c, Apply(c, s, Step(p, ok, take)))
    ensures Evolves(c, s.shared, Apply(c, s, Step(p, ok, take)).shared)
  {
    var s' := Apply(c, s, Step(p, ok, take));
    var at := s.processes[p].at;
    if at.Acknowledge? {
      EvolvesSame(c, s.shared);
    } else {
      var o := Turn(c, s.shared, at, ok, take);
      assert ProcessOk(c, s.shared, s.processes[p]);
      TurnKeeps(c, s.shared, at, ok, take);
      StartedStays(c, s.shared, o.shared);
      forall q | 0 <= q < |s'.processes| ensures ProcessOk(c, s'.shared, s'.processes[q]) {
        if q != p {
          assert ProcessOk(c, s.shared, s.processes[q]);
          OthersStable(c, s.shared, o.shared, s.processes, q, Owned(at));
        }
      }
      ExclusiveKept(c, s, p, o.at);
    }
  }

  lemma ExclusiveKept(c: Config, s: State, p: nat, at': Place)
    requires Inv(c, s) && p < |s.processes| && s.processes[p].Busy?
    requires Owned(at').Some? ==>
               Owned(at') == Owned(s.processes[p].at) || !Holds(s.shared.tables, Owned(at').value)
    ensures Exclusive(s.processes[p := s.processes[p].(at := at')])
  {
    forall q | 0 <= q < |s.processes| && q != p && s.processes[q].Busy? && Owned(s.processes[q].at).Some?
      ensures Owned(s.processes[q].at) != Owned(at')
    {
      assert ProcessOk(c, s.shared, s.processes[q]);
    }
  }

  /** Stream movements and cancellation: the rows are not involved. */
  lemma OutsideKeeps(c: Config, s: State, sh': Shared)
    requires Inv(c, s) && RowsKept(s.shared, sh')
    requires StatusFacts(c, sh') && StreamFacts(c, sh')
    ensures Inv(c, s.(shared := sh')) && Evolves(c, s.shared, sh')
  {
    JobRowOnly(c, s.shared, sh');
    forall q | 0 <= q < |s.processes| ensures ProcessOk(c, sh', s.processes[q]) {
      OthersStable(c, s.shared, sh', s.processes, q, None);
    }
  }

  lemma EnqueueAnyKeeps(c: Config, s: State, e: Entry)
    requires Inv(c, s)
    requires e.SegmentEntry? ==> Started(c, s.shared.tables) && e.seqNo < |c.pieces|
    ensures Inv(c, s.(shared := Enqueue(s.shared, e))) && Evolves(c, s.shared, Enqueue(s.shared, e))
  {
    OutsideKeeps(c, s, Enqueue(s.shared, e));
  }

  lemma DequeueKeeps(c: Config, s: State, e: Entry)
    requires Inv(c, s) && InStream(s.shared, e)
    ensures Inv(c, s.(shared := Dequeue(s.shared, e))) && Evolves(c, s.shared, Dequeue(s.shared, e))
  {
    OutsideKeeps(c, s, Dequeue(s.shared, e));
  }

  lemma CancelKeeps(c: Config, s: State)
    requires Inv(c, s)
    ensures Inv(c, Apply(c, s, Cancel)) && Evolves(c, s.shared, Apply(c, s, Cancel).shared)
  {
    var sh' := WithTables(s.shared, CancelJob(s.shared.tables));
    OutsideKeeps(c, s, sh');
  }

  /** A process that starts over, stops, or only acknowledges claims nothing. */
  lemma ReplaceKeeps(c: Config, s: State, p: nat, proc: Process)
    requires Inv(c, s) && p < |s.processes| && ProcessOk(c, s.shared, proc)
    requires proc.Busy? ==> Owned(proc.at).None?
    ensures Inv(c, s.(processes := s.processes[p := proc]))
  {
    var procs := s.processes[p := proc];
    assert forall q | 0 <= q < |procs| :: q == p || procs[q] == s.processes[q];
  }

  lemma EventKeeps(c: Config, s: State, e: Event)
    requires KeysOk(c) && Inv(c, s) && Enabled(s, e)
    ensures Inv(c, Apply(c, s, e)) && Evolves(c, s.shared, Apply(c, s, e).shared)
  {
    match e
    case Step(p, ok, take) => StepKeeps(c, s, p, ok, take);
    case Deliver(p, entry) =>
      assert entry.SegmentEntry? ==> Started(c, s.shared.tables) && entry.seqNo < |c.pieces|;
      DequeueKeeps(c, s, entry);
      ReplaceKeeps(c, s.(shared := Dequeue(s.shared, entry)), p, Busy(entry, Start(entry)));
    case Crash(p) =>
      assert ProcessOk(c, s.shared, s.processes[p]);
      EnqueueAnyKeeps(c, s, s.processes[p].entry);
      ReplaceKeeps(c, s.(shared := Enqueue(s.shared, s.processes[p].entry)), p, Idle);
    case GiveUp(p) =>
      assert ProcessOk(c, s.shared, s.processes[p]);
      ReplaceKeeps(c, s, p, s.processes[p].(at := Acknowledge));
      EvolvesSame(c, s.shared);
    case Redeliver(p) =>
      assert ProcessOk(c, s.shared, s.processes[p]);
      EnqueueAnyKeeps(c, s, s.processes[p].entry);
    case Lose(entry) => DequeueKeeps(c, s, entry);
    case Reconcile => EnqueueAnyKeeps(c, s, JobEntry);
    case Cancel => CancelKeeps(c, s);
  }

  // Whole runs.

  ghost predicate JobRun(c: Config, run: seq<State>, events: seq<Event>) {
    KeysOk(c) && IsRun(c, run, events) && Initial(run[0])
  }

  lemma InitialInv(c: Config, s: State)
    requires Initial(s)
    ensures Inv(c, s)
  {
    assert DoneRows(s.shared.tables.rows) == {};
  }

  lemma {:induction false} RunKeeps(c: Config, run: seq<State>, events: seq<Event>, k: nat)
    requires JobRun(c, run, events) && k < |run|
    ensures Inv(c, run[k])
  {
    if k == 0 {
      InitialInv(c, run[0]);
    } else {
      RunKeeps(c, run, events, k - 1);
      EventKeeps(c, run[k - 1], events[k - 1]);
    }
  }

  lemma EvolvesTransitive(c: Config, a: Shared, b: Shared, d: Shared)
    requires Evolves(c, a, b) && Evolves(c, b, d)
    ensures Evolves(c, a, d)
  {
    if a.output.Some? && MergedRight(c, a, a.output.value) {
      MergedStays(c, a, b, a.output.value);
    }
  }

  lemma StepEvolves(c: Config, run: seq<State>, events: seq<Event>, k: nat)
    requires JobRun(c, run, events) && k < |events|
    ensures Evolves(c, run[k].shared, run[k + 1].shared)
  {
    RunKeeps(c, run, events, k);
    EventKeeps(c, run[k], events[k]);
  }

  lemma {:induction false} ChainEvolves(c: Config, chain: seq<Shared>, j: nat, k: nat)
    requires j <= k < |chain| && forall i | 0 <= i < |chain| - 1 :: Evolves(c, chain[i], chain[i + 1])
    ensures Evolves(c, chain[j], chain[k])
  {
    if j == k {
      EvolvesSame(c, chain[j]);
    } else {
      ChainEvolves(c, chain, j, k - 1);
      assert Evolves(c, chain[k - 1], chain[k - 1 + 1]);
      EvolvesTransitive(c, chain[j], chain[k - 1], chain[k]);
    }
  }

  lemma RunEvolves(c: Config, run: seq<State>, events: seq<Event>, j: nat, k: nat)
    requires JobRun(c, run, events) && j <= k < |run|
    ensures Evolves(c, run[j].shared, run[k].shared)
  {
    var chain := seq(|run|, i requires 0 <= i < |run| => run[i].shared);
    forall i: nat | i < |chain| - 1
      ensures Evolves(c, chain[i], chain[i + 1])
    {
      StepEvolves(c, run, events, i);
    }
    ChainEvolves(c, chain, j, k);
  }

  // What the protocol promises.

  /** What synthesizing the pieces one after the other and merging them would produce. */
  function Sequential(pieces: seq<string>, takes: seq<nat>): (audio: seq<Audio>)
    requires |takes| == |pieces|
  {
    seq(|pieces|, i requires 0 <= i < |pieces| => Audio(pieces[i], takes[i]))
  }

  /** A job that reached merging has exactly rows 0..n-1, each done under its own key. */
  lemma MergingMeansAllDone(c: Config, run: seq<State>, events: seq<Event>, k: nat)
    requires JobRun(c, run, events) && k < |run|
    requires run[k].shared.tables.job.status.Merging? || run[k].shared.tables.job.status.Completed?
    ensures var t := run[k].shared.tables;
            && |c.pieces| >= 1 && t.job.total == Some(|c.pieces|) && t.job.done == |c.pieces|
            && (forall i: nat :: i in t.rows <==> i < |c.pieces|)
            && (forall i | i in t.rows :: t.rows[i].status.Done? && t.rows[i].key == c.segmentKey(i))
  {
    RunKeeps(c, run, events, k);
    var sh := run[k].shared;
    forall i | i in sh.tables.rows ensures sh.tables.rows[i].key == c.segmentKey(i) {
      assert RowOk(c, sh.tables.rows[i], sh.objects, sh.completions[i], i);
    }
    assert DoneRows(sh.tables.rows) == Below(|c.pieces|);
  }

  /** No process ever finds a segment that is "not ready to merge". */
  lemma NeverNotReady(c: Config, run: seq<State>, events: seq<Event>, k: nat, p: nat)
    requires JobRun(c, run, events) && k < |run| && p < |run[k].processes|
    requires run[k].processes[p].Busy? && run[k].processes[p].at.ListKeys?
    ensures Mergeable(run[k].shared.tables.rows)
  {
    RunKeeps(c, run, events, k);
    assert ProcessOk(c, run[k].shared, run[k].processes[p]);
    ReadyToMerge(c, run[k].shared);
  }

  /** Every merge is asked for the keys of pieces 0..n-1, in order, and finds their audio. */
  lemma MergeGetsAllKeys(c: Config, run: seq<State>, events: seq<Event>, k: nat, p: nat)
    requires JobRun(c, run, events) && k < |run| && p < |run[k].processes|
    requires run[k].processes[p].Busy? && run[k].processes[p].at.MergeKeys?
    ensures var keys := run[k].processes[p].at.keys;
            && |keys| == |c.pieces|
            && (forall i | 0 <= i < |keys| :: keys[i] == c.segmentKey(i))
            && Fetchable(run[k].shared.objects, keys)
  {
    RunKeeps(c, run, events, k);
    assert ProcessOk(c, run[k].shared, run[k].processes[p]);
    KeysFetchable(c, run[k].shared, run[k].processes[p].at.keys);
  }

  lemma TakesOf(c: Config, objects: map<string, Audio>) returns (takes: seq<nat>)
    requires AllRendered(c, objects)
    ensures |takes| == |c.pieces| && Assembled(c, objects) == Sequential(c.pieces, takes)
  {
    var audio := Assembled(c, objects);
    takes := seq(|audio|, i requires 0 <= i < |audio| => audio[i].take);
    forall i | 0 <= i < |c.pieces| ensures audio[i] == Audio(c.pieces[i], takes[i]) {
      assert Rendered(c, objects, i);
    }
  }

  /** The concurrent run refines sequential synthesize-then-merge: one choice of renditions
      explains every merge ever made, and the output of a completed job. */
  lemma RefinesSequential(c: Config, run: seq<State>, events: seq<Event>) returns (takes: seq<nat>)
    requires JobRun(c, run, events)
    ensures |takes| == |c.pieces|
    ensures forall k, m | 0 <= k < |run| && 0 <= m < |run[k].shared.merges| ::
              run[k].shared.merges[m] == Sequential(c.pieces, takes)
    ensures forall k | 0 <= k < |run| && run[k].shared.tables.job.status.Completed? ::
              run[k].shared.output == Some(Sequential(c.pieces, takes))
  {
    var last := run[|run| - 1].shared;
    RunKeeps(c, run, events, |run| - 1);
    takes := seq(|c.pieces|, _ => 0);
    if AllDone(c, last.tables) {
      forall i | 0 <= i < |c.pieces| ensures Rendered(c, last.objects, i) {
        assert RowOk(c, last.tables.rows[i], last.objects, last.completions[i], i);
      }
      takes := TakesOf(c, last.objects);
    }
    forall k, audio | 0 <= k < |run| && MergedRight(c, run[k].shared, audio)
      ensures audio == Sequential(c.pieces, takes)
    {
      RunEvolves(c, run, events, k, |run| - 1);
      MergedStays(c, run[k].shared, last, audio);
    }
    forall k | 0 <= k < |run| ensures SharedOk(c, run[k].shared) {
      RunKeeps(c, run, events, k);
    }
  }

  /** The live process has claimed row `i` and not given it back. */
  predicate Claims(p: Process, i: nat) { p.Busy? && Owned(p.at) == Some(i) }

  /** The counter is exact, a segment completes at most once, and at most one live process
      holds a row, which is then running. */
  lemma BookkeepingExact(c: Config, run: seq<State>, events: seq<Event>, k: nat)
    requires JobRun(c, run, events) && k < |run|
    ensures var sh := run[k].shared;
            && sh.tables.job.done == |DoneRows(sh.tables.rows)|
            && (forall i: nat :: sh.completions[i] == if i in DoneRows(sh.tables.rows) then 1 else 0)
    ensures forall p, i | 0 <= p < |run[k].processes| && Claims(run[k].processes[p], i) ::
              Holds(run[k].shared.tables, i)
    ensures forall p, q, i | 0 <= p < |run[k].processes| && 0 <= q < |run[k].processes|
                             && Claims(run[k].processes[p], i) && Claims(run[k].processes[q], i) ::
              p == q
  {
    RunKeeps(c, run, events, k);
    var sh := run[k].shared;
    forall i: nat ensures sh.completions[i] == if i in DoneRows(sh.tables.rows) then 1 else 0 {
      if i in sh.tables.rows {
        assert RowOk(c, sh.tables.rows[i], sh.objects, sh.completions[i], i);
      } else {
        assert i !in sh.completions;
      }
    }
    forall p, i | 0 <= p < |run[k].processes| && Claims(run[k].processes[p], i)
      ensures Holds(sh.tables, i)
    {
      assert ProcessOk(c, sh, run[k].processes[p]);
    }
  }

  /** Job status only moves forward, terminal is final, and a done row is never touched again. */
  lemma StatusMovesForward(c: Config, run: seq<State>, events: seq<Event>, j: nat, k: nat)
    requires JobRun(c, run, events) && j <= k < |run|
    ensures var t, t' := run[j].shared.tables, run[k].shared.tables;
            && t.job.status.Rank() <= t'.job.status.Rank()
            && (t.job.status.Terminal() ==> t'.job.status == t.job.status && t'.job.output == t.job.output)
            && (forall i | i in t.rows && t.rows[i].status.Done? :: i in t'.rows && t'.rows[i] == t.rows[i])
  {
    RunEvolves(c, run, events, j, k);
  }

  /** A live job keeps its text, only finished jobs are announced, and every announcement of
      the whole run carries the same status. */
  lemma AnnouncedOnlyWhenOver(c: Config, run: seq<State>, events: seq<Event>, k: nat)
    requires JobRun(c, run, events) && k < |run|
    ensures !run[k].shared.tables.job.status.Terminal() ==> run[k].shared.text && run[k].shared.notices == []
    ensures run[k].shared.tables.job.status.Terminal() ==>
              forall j, m | 0 <= j < |run| && 0 <= m < |run[j].shared.notices| ::
                run[j].shared.notices[m] == run[k].shared.tables.job.status
  {
    RunKeeps(c, run, events, k);
    forall j, m | 0 <= j < |run| && 0 <= m < |run[j].shared.notices| && run[k].shared.tables.job.status.Terminal()
      ensures run[j].shared.notices[m] == run[k].shared.tables.job.status
    {
      RunKeeps(c, run, events, j);
      if j <= k { RunEvolves(c, run, events, j, k); } else { RunEvolves(c, run, events, k, j); }
    }
  }

  const SegmentBackoff := [5, 30, 120]

  /** Which delay a retry waits, as an index that may be out of range. */
  function BackoffIndex(attempts: int): int {
    if attempts - 1 < |SegmentBackoff| - 1 then attempts - 1 else |SegmentBackoff| - 1
  }

  /** The backoff table is never read out of range. */
  lemma BackoffInRange(c: Config, run: seq<State>, events: seq<Event>, k: nat, p: nat)
    requires JobRun(c, run, events) && k < |run| && p < |run[k].processes|
    requires run[k].processes[p].Busy? && run[k].processes[p].at.FailRow?
    ensures var a := run[k].processes[p].at.attempts;
            0 <= BackoffIndex(a) < |SegmentBackoff|
  {
    RunKeeps(c, run, events, k);
    var sh, at := run[k].shared, run[k].processes[p].at;
    assert ProcessOk(c, sh, run[k].processes[p]);
    assert RowOk(c, sh.tables.rows[at.seqNo], sh.objects, sh.completions[at.seqNo], at.seqNo);
  }
}
