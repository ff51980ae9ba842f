/** What every step of the job protocol keeps, and what follows for every run. */
module JobSafety {
  import opened Basics
  import opened JobTables
  import opened JobProtocol

  // Facts about the tables.

  ghost predicate Full(c: Config, rows: Rows) {
    |c.pieces| >= 1 && forall i: nat :: i in rows <==> i < |c.pieces|
  }

  /** Fan-out has become possible: all rows exist and the job has left segmentation. */
  ghost predicate Started(c: Config, t: Tables) {
    Full(c, t.rows) && !t.job.status.Queued? && !t.job.status.Segmenting?
  }

  ghost predicate AllDone(c: Config, t: Tables) {
    Started(c, t) && forall i | i in t.rows :: t.rows[i].status.Done?
  }

  predicate MergeReached(t: Tables) {
    t.job.status.Merging? || t.job.status.Terminal()
  }

  /** The object of segment i holds a rendition of piece i. */
  predicate Rendered(c: Config, objects: map<string, Audio>, i: nat) {
    i < |c.pieces| && c.segmentKey(i) in objects && objects[c.segmentKey(i)].text == c.pieces[i]
  }

  predicate RowOk(c: Config, row: Segment, objects: map<string, Audio>, completed: nat, i: nat) {
    && i < |c.pieces|
    && (row.status.Running? ==> row.attempts >= 1)
    && (row.status.Done? ==> row.key == c.segmentKey(i) && Rendered(c, objects, i))
    && completed == (if row.status.Done? then 1 else 0)
  }

  /** What the sequential program would merge: the stored rendition of each piece, in order. */
  ghost function Assembled(c: Config, objects: map<string, Audio>): (audio: seq<Audio>)
    requires AllRendered(c, objects)
    ensures |audio| == |c.pieces|
  {
    seq(|c.pieces|, i requires 0 <= i < |c.pieces| =>
      assert Rendered(c, objects, i); objects[c.segmentKey(i)])
  }

  ghost predicate AllRendered(c: Config, objects: map<string, Audio>) {
    forall i | 0 <= i < |c.pieces| :: Rendered(c, objects, i)
  }

  ghost predicate MergedRight(c: Config, sh: Shared, audio: seq<Audio>) {
    AllDone(c, sh.tables) && AllRendered(c, sh.objects) && audio == Assembled(c, sh.objects)
  }

  ghost predicate RowFacts(c: Config, sh: Shared) {
    var t := sh.tables;
    && (forall i | i in t.rows :: RowOk(c, t.rows[i], sh.objects, sh.completions[i], i))
    && (forall i | i in sh.completions :: i in t.rows)
    && t.job.done == |DoneRows(t.rows)|
    && (forall k | 0 <= k < |sh.merges| :: MergedRight(c, sh, sh.merges[k]))
  }

  ghost predicate StatusFacts(c: Config, sh: Shared) {
    var t := sh.tables;
    && (t.job.status.Synthesizing? ==> Started(c, t) && t.job.total == Some(|c.pieces|))
    && (t.job.status.Merging? || t.job.status.Completed? ==> AllDone(c, t) && t.job.total == Some(|c.pieces|))
    && (t.job.status.Completed? ==>
          t.job.output == c.outputKey && sh.output.Some? && MergedRight(c, sh, sh.output.value))
    && (!sh.text ==> t.job.status.Terminal())
    && (forall k | 0 <= k < |sh.notices| :: sh.notices[k] == t.job.status)
    && (sh.notices != [] ==> t.job.status.Terminal())
  }

  ghost predicate StreamFacts(c: Config, sh: Shared) {
    forall i | i in sh.segmentStream :: Started(c, sh.tables) && i < |c.pieces|
  }

  ghost predicate SharedOk(c: Config, sh: Shared) {
    RowFacts(c, sh) && StatusFacts(c, sh) && StreamFacts(c, sh)
  }

  // Facts about one process.

  /** The row a process has claimed and not yet given back. */
  function Owned(at: Place): Option<nat> {
    match at
    case FindRow(i) => Some(i)
    case ReadText(i, _) => Some(i)
    case SplitText(i, _) => Some(i)
    case Render(i, _) => Some(i)
    case CompleteRow(i, _) => Some(i)
    case FailRow(i, _) => Some(i)
    case _ => None
  }

  predicate Holds(t: Tables, i: nat) {
    i in t.rows && t.rows[i].status.Running?
  }

  /** A status read earlier is still a lower bound on the current one. */
  predicate LoadedOk(loaded: Status, t: Tables) {
    && !loaded.Queued? && !loaded.Segmenting?
    && (loaded.Terminal() ==> t.job.status.Terminal())
    && (loaded.Merging? ==> MergeReached(t))
  }

  ghost predicate PlaceOk(c: Config, sh: Shared, at: Place) {
    var t := sh.tables;
    match at
    case LoadJob => true
    case Advance => true
    case ReadInput => !t.job.status.Queued?
    case SplitInput => !t.job.status.Queued?
    case CreateRow(i) =>
      !t.job.status.Queued? && 1 <= |c.pieces| && i <= |c.pieces| && forall k: nat | k < i :: k in t.rows
    case SetTotal => !t.job.status.Queued? && Full(c, t.rows)
    case Reload => Started(c, t)
    case FanOut(loaded) => Started(c, t) && LoadedOk(loaded, t)
    case Publish(todo) => Started(c, t) && forall k | 0 <= k < |todo| :: todo[k] < |c.pieces|
    case LoadForSegment(i) => Started(c, t) && i < |c.pieces|
    case Claim(i) => Started(c, t) && i < |c.pieces|
    case FindRow(i) => Started(c, t) && Holds(t, i)
    case ReadText(i, a) => Started(c, t) && Holds(t, i) && a == t.rows[i].attempts
    case SplitText(i, a) => Started(c, t) && Holds(t, i) && a == t.rows[i].attempts
    case Render(i, a) => Started(c, t) && Holds(t, i) && a == t.rows[i].attempts
    case CompleteRow(i, key) =>
      Started(c, t) && Holds(t, i) && key == c.segmentKey(i) && Rendered(c, sh.objects, i)
    case CountLeft => Started(c, t)
    case ReloadDone => AllDone(c, t)
    case FailRow(i, a) => Started(c, t) && Holds(t, i) && a == t.rows[i].attempts
    case Requeue(i) => Started(c, t) && i < |c.pieces|
    case BeginMerge(loaded) => AllDone(c, t) && LoadedOk(loaded, t)
    case ListKeys => AllDone(c, t) && MergeReached(t)
    case MergeKeys(keys) =>
      && AllDone(c, t) && MergeReached(t)
      && |keys| == |c.pieces| && forall k | 0 <= k < |keys| :: keys[k] == c.segmentKey(k)
    case CompleteRun(key) =>
      && AllDone(c, t) && MergeReached(t) && key == c.outputKey
      && sh.output.Some? && MergedRight(c, sh, sh.output.value)
    case FailRun => true
    case CleanUp => t.job.status.Terminal()
    case Notify => t.job.status.Terminal()
    case Acknowledge => true
  }

  ghost predicate ProcessOk(c: Config, sh: Shared, p: Process) {
    p.Busy? ==>
      && PlaceOk(c, sh, p.at)
      && (p.entry.SegmentEntry? ==> Started(c, sh.tables) && p.entry.seqNo < |c.pieces|)
  }

  ghost predicate Exclusive(procs: seq<Process>) {
    forall p, q | 0 <= p < q < |procs| && procs[p].Busy? && procs[q].Busy? && Owned(procs[p].at).Some? ::
      Owned(procs[p].at) != Owned(procs[q].at)
  }

  ghost predicate Inv(c: Config, s: State) {
    && SharedOk(c, s.shared)
    && (forall p | 0 <= p < |s.processes| :: ProcessOk(c, s.shared, s.processes[p]))
    && Exclusive(s.processes)
  }

  // What a step may do to the shared state.

  predicate Forward(a: Status, b: Status) {
    a == b || (!a.Terminal() && a.Rank() < b.Rank())
  }

  ghost predicate Evolves(c: Config, sh: Shared, sh': Shared) {
    var t, t' := sh.tables, sh'.tables;
    && Forward(t.job.status, t'.job.status)
    && t.rows.Keys <= t'.rows.Keys
    && (forall i | i in t.rows ::
          && t.rows[i].attempts <= t'.rows[i].attempts
          && (t.rows[i].status.Done? ==>
                t'.rows[i] == t.rows[i] && SameObject(c, sh, sh', i)))
    && (sh'.text ==> sh.text)
    && sh.notices <= sh'.notices
    && sh.merges <= sh'.merges
    && sh.completions <= sh'.completions
    && (Full(c, t.rows) ==> Full(c, t'.rows))
    && (sh.output.Some? && MergedRight(c, sh, sh.output.value) ==> sh'.output == sh.output)
    && (t.job.status.Terminal() ==> t'.job.status == t.job.status && t'.job.output == t.job.output)
  }

  predicate SameObject(c: Config, sh: Shared, sh': Shared, i: nat) {
    var k := c.segmentKey(i);
    k in sh.objects ==> k in sh'.objects && sh'.objects[k] == sh.objects[k]
  }

  /** Running rows other than `own` are left exactly as they were. */
  ghost predicate LeavesOthers(c: Config, sh: Shared, sh': Shared, own: Option<nat>) {
    forall i | Holds(sh.tables, i) && Some(i) != own ::
      i in sh'.tables.rows && sh'.tables.rows[i] == sh.tables.rows[i] && SameObject(c, sh, sh', i)
  }

  // One turn.

  /** A right merge stays right: done rows and their objects never change. */
  lemma MergedStays(c: Config, sh: Shared, sh': Shared, audio: seq<Audio>)
    requires MergedRight(c, sh, audio) && Evolves(c, sh, sh')
    ensures MergedRight(c, sh', audio)
  {
    forall i | 0 <= i < |c.pieces|
      ensures Rendered(c, sh'.objects, i)
      ensures sh'.objects[c.segmentKey(i)] == audio[i]
    {
      assert i in sh.tables.rows;
      assert Rendered(c, sh.objects, i);
    }
  }

  /** Steps that leave the rows, the objects and most histories alone. */
  ghost predicate RowsKept(sh: Shared, sh': Shared) {
    && sh'.tables.rows == sh.tables.rows && sh'.tables.job.done == sh.tables.job.done
    && sh'.objects == sh.objects && sh'.output == sh.output && sh'.completions == sh.completions
    && sh'.merges == sh.merges && sh.notices <= sh'.notices
    && Forward(sh.tables.job.status, sh'.tables.job.status)
    && (sh.tables.job.status.Terminal() ==> sh'.tables.job == sh.tables.job)
    && (sh'.text ==> sh.text)
  }

  lemma JobRowEvolves(c: Config, sh: Shared, sh': Shared)
    requires RowsKept(sh, sh')
    ensures Evolves(c, sh, sh')
    ensures forall own :: LeavesOthers(c, sh, sh', own)
  {
  }

  lemma JobRowOnly(c: Config, sh: Shared, sh': Shared)
    requires SharedOk(c, sh) && RowsKept(sh, sh')
    requires StatusFacts(c, sh') && StreamFacts(c, sh')
    ensures SharedOk(c, sh')
    ensures Evolves(c, sh, sh')
    ensures forall own :: LeavesOthers(c, sh, sh', own)
  {
    JobRowEvolves(c, sh, sh');
    forall k | 0 <= k < |sh.merges| ensures MergedRight(c, sh', sh.merges[k]) {
      MergedStays(c, sh, sh', sh.merges[k]);
    }
  }

  lemma EvolvesSame(c: Config, sh: Shared)
    ensures Evolves(c, sh, sh)
    ensures forall own :: LeavesOthers(c, sh, sh, own)
  {
  }

  lemma MergedMeansFull(c: Config, sh: Shared)
    requires SharedOk(c, sh)
    ensures sh.merges != [] ==> Full(c, sh.tables.rows)
  {
    if sh.merges != [] {
      assert MergedRight(c, sh, sh.merges[0]);
    }
  }

  /** What one turn has to keep. */
  ghost predicate TurnOk(c: Config, sh: Shared, at: Place, o: Outcome) {
    && SharedOk(c, o.shared)
    && PlaceOk(c, o.shared, o.at)
    && Evolves(c, sh, o.shared)
    && LeavesOthers(c, sh, o.shared, Owned(at))
    && (Owned(o.at).Some? ==> Owned(o.at) == Owned(at) || !Holds(sh.tables, Owned(o.at).value))
  }

  /** A call that changes nothing only has to justify where the handler goes next. */
  lemma ReadKeeps(c: Config, sh: Shared, at: Place, at': Place)
    requires SharedOk(c, sh) && PlaceOk(c, sh, at')
    requires Owned(at').Some? ==> Owned(at') == Owned(at)
    ensures TurnOk(c, sh, at, Outcome(sh, at'))
  {
    EvolvesSame(c, sh);
  }

  lemma AdvanceKeeps(c: Config, sh: Shared, sh': Shared)
    requires SharedOk(c, sh) && sh.tables.job.status.Queued?
    requires sh' == WithTables(sh, TransitionJob(sh.tables, Queued, Segmenting))
    ensures TurnOk(c, sh, Advance, Outcome(sh', ReadInput))
  {
    JobRowOnly(c, sh, sh');
  }

  lemma SetTotalKeeps(c: Config, sh: Shared, sh': Shared)
    requires SharedOk(c, sh) && PlaceOk(c, sh, SetTotal)
    requires sh' == WithTables(sh, SetSegmentsTotal(sh.tables, |c.pieces|))
    ensures TurnOk(c, sh, SetTotal, Outcome(sh', Reload))
  {
    JobRowOnly(c, sh, sh');
  }

  lemma EnqueueKeeps(c: Config, sh: Shared, i: nat)
    requires SharedOk(c, sh) && Started(c, sh.tables) && i < |c.pieces|
    ensures SharedOk(c, Enqueue(sh, SegmentEntry(i)))
    ensures Evolves(c, sh, Enqueue(sh, SegmentEntry(i)))
    ensures forall own :: LeavesOthers(c, sh, Enqueue(sh, SegmentEntry(i)), own)
  {
    JobRowOnly(c, sh, Enqueue(sh, SegmentEntry(i)));
  }

  function Added(sh: Shared, i: nat): Shared {
    Rewritten(sh, i, Segment(Pending, 0, ""))
  }

  lemma NewRowFacts(c: Config, sh: Shared, i: nat)
    requires SharedOk(c, sh) && i < |c.pieces| && i !in sh.tables.rows
    ensures RowFacts(c, Added(sh, i))
  {
    var rows, rows' := sh.tables.rows, Added(sh, i).tables.rows;
    MergedMeansFull(c, sh);
    assert sh.merges == [];
    assert sh.completions[i] == 0;
    assert DoneRows(rows') == DoneRows(rows);
    forall k | k in rows' ensures RowOk(c, rows'[k], sh.objects, sh.completions[k], k) {
      assert k == i || rows'[k] == rows[k];
    }
  }

  lemma NewRowEvolves(c: Config, sh: Shared, i: nat)
    requires SharedOk(c, sh) && i < |c.pieces| && i !in sh.tables.rows
    ensures StatusFacts(c, Added(sh, i)) && StreamFacts(c, Added(sh, i))
    ensures Evolves(c, sh, Added(sh, i)) && LeavesOthers(c, sh, Added(sh, i), None)
  {
    assert !Full(c, sh.tables.rows);
    assert !Started(c, sh.tables);
  }

  lemma CreateAgainKeeps(c: Config, sh: Shared, i: nat)
    requires SharedOk(c, sh) && PlaceOk(c, sh, CreateRow(i)) && i < |c.pieces| && i in sh.tables.rows
    ensures TurnOk(c, sh, CreateRow(i), Outcome(sh, CreateRow(i + 1)))
  {
    ReadKeeps(c, sh, CreateRow(i), CreateRow(i + 1));
  }

  lemma CreateFirstKeeps(c: Config, sh: Shared, i: nat)
    requires SharedOk(c, sh) && PlaceOk(c, sh, CreateRow(i)) && i < |c.pieces| && i !in sh.tables.rows
    ensures TurnOk(c, sh, CreateRow(i), Outcome(Added(sh, i), CreateRow(i + 1)))
  {
    NewRowFacts(c, sh, i);
    NewRowEvolves(c, sh, i);
    assert PlaceOk(c, Added(sh, i), CreateRow(i + 1));
  }

  lemma CreateKeeps(c: Config, sh: Shared, sh': Shared, i: nat)
    requires SharedOk(c, sh) && PlaceOk(c, sh, CreateRow(i)) && i < |c.pieces|
    requires sh' == WithTables(sh, CreateSegment(sh.tables, i))
    ensures TurnOk(c, sh, CreateRow(i), Outcome(sh', CreateRow(i + 1)))
  {
    if i in sh.tables.rows {
      CreateAgainKeeps(c, sh, i);
    } else {
      CreateFirstKeeps(c, sh, i);
      assert sh' == Added(sh, i);
    }
  }

  lemma FanOutKeeps(c: Config, sh: Shared, loaded: Status)
    requires SharedOk(c, sh) && PlaceOk(c, sh, FanOut(loaded))
    ensures var todo := Todo(sh.tables.rows);
            PlaceOk(c, sh, if todo == [] then BeginMerge(loaded) else Publish(todo))
  {
    var todo := Todo(sh.tables.rows);
    assert forall k | 0 <= k < |todo| :: todo[k] in todo;
    assert todo == [] ==> forall i | i in sh.tables.rows :: i !in todo;
  }

  lemma LoadJobKeeps(c: Config, sh: Shared, ok: bool)
    requires SharedOk(c, sh)
    ensures TurnOk(c, sh, LoadJob, SegmentingTurn(c, sh, LoadJob, ok))
  {
    var status := sh.tables.job.status;
    if status.Terminal() { ReadKeeps(c, sh, LoadJob, Acknowledge); }
    else if status.Synthesizing? || status.Merging? { ReadKeeps(c, sh, LoadJob, FanOut(status)); }
    else if status.Segmenting? { ReadKeeps(c, sh, LoadJob, ReadInput); }
    else { ReadKeeps(c, sh, LoadJob, Advance); }
  }

  lemma AdvanceTurnKeeps(c: Config, sh: Shared, ok: bool)
    requires SharedOk(c, sh)
    ensures TurnOk(c, sh, Advance, SegmentingTurn(c, sh, Advance, ok))
  {
    if sh.tables.job.status.Queued? {
      AdvanceKeeps(c, sh, WithTables(sh, TransitionJob(sh.tables, Queued, Segmenting)));
    } else {
      ReadKeeps(c, sh, Advance, Acknowledge);
    }
  }

  lemma CreateTurnKeeps(c: Config, sh: Shared, i: nat, ok: bool)
    requires SharedOk(c, sh) && PlaceOk(c, sh, CreateRow(i))
    ensures TurnOk(c, sh, CreateRow(i), SegmentingTurn(c, sh, CreateRow(i), ok))
  {
    if i < |c.pieces| {
      CreateKeeps(c, sh, WithTables(sh, CreateSegment(sh.tables, i)), i);
    } else {
      ReadKeeps(c, sh, CreateRow(i), SetTotal);
    }
  }

  lemma InputTurnKeeps(c: Config, sh: Shared, at: Place, ok: bool)
    requires (at.ReadInput? || at.SplitInput?) && SharedOk(c, sh) && PlaceOk(c, sh, at)
    ensures TurnOk(c, sh, at, SegmentingTurn(c, sh, at, ok))
  {
    if at.ReadInput? {
      ReadKeeps(c, sh, at, if ok && sh.text then SplitInput else FailRun);
    } else if ok && 0 < |c.pieces| <= MaxJobChars {
      ReadKeeps(c, sh, at, CreateRow(0));
    } else {
      ReadKeeps(c, sh, at, FailRun);
    }
  }

  lemma SegmentingTurnKeeps(c: Config, sh: Shared, at: Place, ok: bool)
    requires InSegmenting(at)
    requires SharedOk(c, sh) && PlaceOk(c, sh, at)
    ensures TurnOk(c, sh, at, SegmentingTurn(c, sh, at, ok))
  {
    match at
    case LoadJob => LoadJobKeeps(c, sh, ok);
    case Advance => AdvanceTurnKeeps(c, sh, ok);
    case CreateRow(i) => CreateTurnKeeps(c, sh, i, ok);
    case SetTotal => SetTotalKeeps(c, sh, WithTables(sh, SetSegmentsTotal(sh.tables, |c.pieces|)));
    case ReadInput => InputTurnKeeps(c, sh, at, ok);
    case SplitInput => InputTurnKeeps(c, sh, at, ok);
  }

  lemma FanOutTurnKeeps(c: Config, sh: Shared, at: Place)
    requires InFanOut(at)
    requires SharedOk(c, sh) && PlaceOk(c, sh, at)
    ensures TurnOk(c, sh, at, FanOutTurn(sh, at))
  {
    match at
    case Reload => ReadKeeps(c, sh, at, FanOut(sh.tables.job.status));
    case FanOut(loaded) =>
      FanOutKeeps(c, sh, loaded);
      var todo := Todo(sh.tables.rows);
      if todo == [] { ReadKeeps(c, sh, at, BeginMerge(loaded)); } else { ReadKeeps(c, sh, at, Publish(todo)); }
    case Publish(todo) =>
      if todo == [] {
        ReadKeeps(c, sh, at, Acknowledge);
      } else {
        EnqueueKeeps(c, sh, todo[0]);
        assert PlaceOk(c, Enqueue(sh, SegmentEntry(todo[0])), Publish(todo[1..]));
      }
  }

  // Segment attempts.

  function Rewritten(sh: Shared, i: nat, row: Segment): Shared {
    WithTables(sh, sh.tables.(rows := sh.tables.rows[i := row]))
  }

  /** Rewriting one unfinished row into another unfinished row. */
  ghost predicate Rewritable(c: Config, sh: Shared, i: nat, row: Segment) {
    && SharedOk(c, sh) && Started(c, sh.tables) && i in sh.tables.rows
    && !sh.tables.rows[i].status.Done? && !row.status.Done?
    && sh.tables.rows[i].attempts <= row.attempts && (row.status.Running? ==> row.attempts >= 1)
  }

  lemma RewrittenRowFacts(c: Config, sh: Shared, i: nat, row: Segment)
    requires Rewritable(c, sh, i, row)
    ensures RowFacts(c, Rewritten(sh, i, row))
  {
    var rows, rows' := sh.tables.rows, Rewritten(sh, i, row).tables.rows;
    assert !AllDone(c, sh.tables);
    NothingMergedYet(c, sh);
    assert DoneRows(rows') == DoneRows(rows);
    forall k | k in rows' ensures RowOk(c, rows'[k], sh.objects, sh.completions[k], k) {
      assert k == i || rows'[k] == rows[k];
    }
  }

  lemma RewrittenEvolves(c: Config, sh: Shared, i: nat, row: Segment)
    requires Rewritable(c, sh, i, row)
    ensures var sh' := Rewritten(sh, i, row);
            && StatusFacts(c, sh') && StreamFacts(c, sh') && Started(c, sh'.tables)
            && Evolves(c, sh, sh') && LeavesOthers(c, sh, sh', Some(i))
  {
    assert !AllDone(c, sh.tables);
    assert Full(c, Rewritten(sh, i, row).tables.rows);
  }

  lemma UnfinishedRowChanges(c: Config, sh: Shared, i: nat, row: Segment)
    requires Rewritable(c, sh, i, row)
    ensures var sh' := Rewritten(sh, i, row);
            SharedOk(c, sh') && Evolves(c, sh, sh') && Started(c, sh'.tables) && LeavesOthers(c, sh, sh', Some(i))
  {
    RewrittenRowFacts(c, sh, i, row);
    RewrittenEvolves(c, sh, i, row);
  }

  lemma ClaimIsRewrite(sh: Shared, i: nat, row: Segment)
    requires ClaimAffects(sh.tables, i)
    requires row == sh.tables.rows[i].(status := Running, attempts := sh.tables.rows[i].attempts + 1)
    ensures WithTables(sh, ClaimSegment(sh.tables, i)) == Rewritten(sh, i, row)
  {
  }

  lemma ClaimKeeps(c: Config, sh: Shared, i: nat)
    requires SharedOk(c, sh) && PlaceOk(c, sh, Claim(i)) && ClaimAffects(sh.tables, i)
    ensures TurnOk(c, sh, Claim(i), Outcome(WithTables(sh, ClaimSegment(sh.tables, i)), FindRow(i)))
  {
    var row := sh.tables.rows[i].(status := Running, attempts := sh.tables.rows[i].attempts + 1);
    ClaimIsRewrite(sh, i, row);
    UnfinishedRowChanges(c, sh, i, row);
    assert PlaceOk(c, Rewritten(sh, i, row), FindRow(i));
  }

  lemma FailIsRewrite(sh: Shared, i: nat)
    requires i in sh.tables.rows
    ensures WithTables(sh, FailSegment(sh.tables, i)) == Rewritten(sh, i, sh.tables.rows[i].(status := Broken))
  {
  }

  lemma FailRowKeeps(c: Config, sh: Shared, i: nat, a: nat, at': Place)
    requires SharedOk(c, sh) && PlaceOk(c, sh, FailRow(i, a))
    requires at' == FailRun || at' == Requeue(i)
    ensures TurnOk(c, sh, FailRow(i, a), Outcome(WithTables(sh, FailSegment(sh.tables, i)), at'))
  {
    var row := sh.tables.rows[i].(status := Broken);
    FailIsRewrite(sh, i);
    UnfinishedRowChanges(c, sh, i, row);
    assert i < |c.pieces|;
    assert PlaceOk(c, Rewritten(sh, i, row), at');
  }

  lemma RenderKeeps(c: Config, sh: Shared, i: nat, a: nat, take: nat)
    requires KeysOk(c) && SharedOk(c, sh) && PlaceOk(c, sh, Render(i, a)) && i < |c.pieces|
    ensures var key := c.segmentKey(i);
            TurnOk(c, sh, Render(i, a),
                   Outcome(sh.(objects := sh.objects[key := Audio(c.pieces[i], take)]), CompleteRow(i, key)))
  {
    var key := c.segmentKey(i);
    var sh' := sh.(objects := sh.objects[key := Audio(c.pieces[i], take)]);
    var rows := sh.tables.rows;
    assert !AllDone(c, sh.tables);
    NothingMergedYet(c, sh);
    forall k | k in rows && k != i ensures SameObject(c, sh, sh', k) {
      assert c.segmentKey(k) != key;
    }
    forall k | k in rows ensures RowOk(c, rows[k], sh'.objects, sh'.completions[k], k) {
      assert RowOk(c, rows[k], sh.objects, sh.completions[k], k);
    }
  }

  function Finished(sh: Shared, i: nat, key: string): Shared
    requires i in sh.tables.rows
  {
    sh.(tables := Tables(sh.tables.job.(done := sh.tables.job.done + 1),
                         sh.tables.rows[i := sh.tables.rows[i].(status := Done, key := key)]),
    completions := sh.completions + multiset{i})
  }

  lemma OneMoreDone(rows: Rows, i: nat, row: Segment)
    requires i in rows && !rows[i].status.Done? && row.status.Done?
    ensures |DoneRows(rows[i := row])| == |DoneRows(rows)| + 1
  {
    assert DoneRows(rows[i := row]) == DoneRows(rows) + {i};
  }

  lemma FinishedRowFacts(c: Config, sh: Shared, i: nat, key: string)
    requires SharedOk(c, sh) && PlaceOk(c, sh, CompleteRow(i, key))
    ensures RowFacts(c, Finished(sh, i, key))
  {
    var sh' := Finished(sh, i, key);
    var rows, rows' := sh.tables.rows, sh'.tables.rows;
    assert !AllDone(c, sh.tables);
    NothingMergedYet(c, sh);
    OneMoreDone(rows, i, rows'[i]);
    assert RowOk(c, rows[i], sh.objects, sh.completions[i], i);
    forall k | k in rows' ensures RowOk(c, rows'[k], sh'.objects, sh'.completions[k], k) {
      assert k == i || (rows'[k] == rows[k] && sh'.completions[k] == sh.completions[k]);
    }
  }

  lemma FinishedEvolves(c: Config, sh: Shared, i: nat, key: string)
    requires SharedOk(c, sh) && PlaceOk(c, sh, CompleteRow(i, key))
    ensures StatusFacts(c, Finished(sh, i, key)) && StreamFacts(c, Finished(sh, i, key))
    ensures Evolves(c, sh, Finished(sh, i, key)) && LeavesOthers(c, sh, Finished(sh, i, key), Some(i))
    ensures Started(c, Finished(sh, i, key).tables)
  {
    assert !AllDone(c, sh.tables);
    assert Full(c, Finished(sh, i, key).tables.rows);
  }

  lemma CompleteRowKeeps(c: Config, sh: Shared, i: nat, key: string)
    requires SharedOk(c, sh) && PlaceOk(c, sh, CompleteRow(i, key))
    ensures TurnOk(c, sh, CompleteRow(i, key), SettleTurn(sh, CompleteRow(i, key)))
  {
    FinishedRowFacts(c, sh, i, key);
    FinishedEvolves(c, sh, i, key);
    assert SettleTurn(sh, CompleteRow(i, key)) == Outcome(Finished(sh, i, key), CountLeft);
  }

  lemma CountLeftKeeps(c: Config, sh: Shared)
    requires SharedOk(c, sh) && PlaceOk(c, sh, CountLeft)
    ensures TurnOk(c, sh, CountLeft, SettleTurn(sh, CountLeft))
  {
    var left := UnfinishedRows(sh.tables.rows);
    if left == {} {
      assert forall i | i in sh.tables.rows :: i !in left;
      ReadKeeps(c, sh, CountLeft, ReloadDone);
    } else {
      ReadKeeps(c, sh, CountLeft, Acknowledge);
    }
  }

  lemma ClaimTurnKeeps(c: Config, sh: Shared, i: nat, ok: bool, take: nat)
    requires SharedOk(c, sh) && PlaceOk(c, sh, Claim(i))
    ensures TurnOk(c, sh, Claim(i), AttemptTurn(c, sh, Claim(i), ok, take))
  {
    if ClaimAffects(sh.tables, i) { ClaimKeeps(c, sh, i); } else { ReadKeeps(c, sh, Claim(i), Acknowledge); }
  }

  lemma RenderTurnKeeps(c: Config, sh: Shared, i: nat, a: nat, ok: bool, take: nat)
    requires KeysOk(c) && SharedOk(c, sh) && PlaceOk(c, sh, Render(i, a))
    ensures TurnOk(c, sh, Render(i, a), AttemptTurn(c, sh, Render(i, a), ok, take))
  {
    if ok && i < |c.pieces| { RenderKeeps(c, sh, i, a, take); } else { ReadKeeps(c, sh, Render(i, a), FailRow(i, a)); }
  }

  lemma FindRowTurnKeeps(c: Config, sh: Shared, i: nat, ok: bool, take: nat)
    requires SharedOk(c, sh) && PlaceOk(c, sh, FindRow(i))
    ensures TurnOk(c, sh, FindRow(i), AttemptTurn(c, sh, FindRow(i), ok, take))
  {
    ReadKeeps(c, sh, FindRow(i), ReadText(i, sh.tables.rows[i].attempts));
  }

  lemma TextTurnKeeps(c: Config, sh: Shared, at: Place, ok: bool, take: nat)
    requires (at.ReadText? || at.SplitText?) && SharedOk(c, sh) && PlaceOk(c, sh, at)
    ensures TurnOk(c, sh, at, AttemptTurn(c, sh, at, ok, take))
  {
    match at
    case ReadText(i, a) => ReadKeeps(c, sh, at, if ok && sh.text then SplitText(i, a) else FailRow(i, a));
    case SplitText(i, a) => ReadKeeps(c, sh, at, if ok && i < |c.pieces| then Render(i, a) else FailRow(i, a));
  }

  lemma LoadTurnKeeps(c: Config, sh: Shared, i: nat, ok: bool, take: nat)
    requires SharedOk(c, sh) && PlaceOk(c, sh, LoadForSegment(i))
    ensures TurnOk(c, sh, LoadForSegment(i), AttemptTurn(c, sh, LoadForSegment(i), ok, take))
  {
    ReadKeeps(c, sh, LoadForSegment(i), if sh.tables.job.status.Terminal() then Acknowledge else Claim(i));
  }

  lemma AttemptTurnKeeps(c: Config, sh: Shared, at: Place, ok: bool, take: nat)
    requires KeysOk(c) && InAttempt(at) && SharedOk(c, sh) && PlaceOk(c, sh, at)
    ensures TurnOk(c, sh, at, AttemptTurn(c, sh, at, ok, take))
  {
    match at
    case LoadForSegment(i) => LoadTurnKeeps(c, sh, i, ok, take);
    case Claim(i) => ClaimTurnKeeps(c, sh, i, ok, take);
    case FindRow(i) => FindRowTurnKeeps(c, sh, i, ok, take);
    case ReadText(_, _) => TextTurnKeeps(c, sh, at, ok, take);
    case SplitText(_, _) => TextTurnKeeps(c, sh, at, ok, take);
    case Render(i, a) => RenderTurnKeeps(c, sh, i, a, ok, take);
  }

  lemma SettleTurnKeeps(c: Config, sh: Shared, at: Place)
    requires InSettle(at) && SharedOk(c, sh) && PlaceOk(c, sh, at)
    ensures TurnOk(c, sh, at, SettleTurn(sh, at))
  {
    match at
    case CompleteRow(i, key) => CompleteRowKeeps(c, sh, i, key);
    case CountLeft => CountLeftKeeps(c, sh);
    case ReloadDone => ReadKeeps(c, sh, at, BeginMerge(sh.tables.job.status));
    case FailRow(i, a) => FailRowKeeps(c, sh, i, a, if a >= MaxSegmentAttempts then FailRun else Requeue(i));
    case Requeue(i) => EnqueueKeeps(c, sh, i);
  }

  // Merging and closing.

  lemma BeginMergeKeeps(c: Config, sh: Shared, loaded: Status)
    requires SharedOk(c, sh) && PlaceOk(c, sh, BeginMerge(loaded)) && sh.tables.job.status.Synthesizing?
    ensures TurnOk(c, sh, BeginMerge(loaded),
                   Outcome(WithTables(sh, TransitionJob(sh.tables, Synthesizing, Merging)), ListKeys))
  {
    JobRowOnly(c, sh, WithTables(sh, TransitionJob(sh.tables, Synthesizing, Merging)));
  }

  /** The rows 0..n-1 give their keys in that order. */
  lemma KeysInOrder(rows: Rows, n: nat)
    requires forall i: nat :: i in rows <==> i < n
    ensures |Keys(rows)| == n
    ensures forall k: nat | k < n :: Keys(rows)[k] == rows[k].key
  {
    assert rows.Keys == Below(n);
    ListsBelow(Listing(rows.Keys), n);
  }

  lemma DoneKeys(c: Config, sh: Shared, i: nat)
    requires KeysOk(c) && SharedOk(c, sh) && AllDone(c, sh.tables) && i in sh.tables.rows
    ensures sh.tables.rows[i].key == c.segmentKey(i) && sh.tables.rows[i].key != ""
  {
    assert RowOk(c, sh.tables.rows[i], sh.objects, sh.completions[i], i);
  }

  lemma KeysMatch(rows: Rows, n: nat, key: nat -> string)
    requires forall i: nat :: i in rows <==> i < n
    requires forall i | i in rows :: rows[i].key == key(i)
    ensures |Keys(rows)| == n
    ensures forall k | 0 <= k < n :: Keys(rows)[k] == key(k)
  {
    KeysInOrder(rows, n);
  }

  lemma DoneIsMergeable(c: Config, sh: Shared)
    requires KeysOk(c) && SharedOk(c, sh) && AllDone(c, sh.tables)
    ensures Mergeable(sh.tables.rows)
  {
    forall i | i in sh.tables.rows ensures sh.tables.rows[i].key != "" {
      DoneKeys(c, sh, i);
    }
  }

  /** The listed keys are those of pieces 0..n-1, so the "not ready to merge" branch is dead. */
  lemma ReadyToMerge(c: Config, sh: Shared)
    requires KeysOk(c) && SharedOk(c, sh) && AllDone(c, sh.tables)
    ensures Mergeable(sh.tables.rows)
    ensures |Keys(sh.tables.rows)| == |c.pieces|
    ensures forall k | 0 <= k < |c.pieces| :: Keys(sh.tables.rows)[k] == c.segmentKey(k)
  {
    DoneIsMergeable(c, sh);
    forall i | i in sh.tables.rows ensures sh.tables.rows[i].key == c.segmentKey(i) {
      DoneKeys(c, sh, i);
    }
    KeysMatch(sh.tables.rows, |c.pieces|, c.segmentKey);
  }

  lemma KeysFetchable(c: Config, sh: Shared, keys: seq<string>)
    requires SharedOk(c, sh) && PlaceOk(c, sh, MergeKeys(keys))
    ensures Fetchable(sh.objects, keys)
    ensures MergedRight(c, sh, Fetch(sh.objects, keys))
  {
    var rows := sh.tables.rows;
    forall i | 0 <= i < |c.pieces| ensures Rendered(c, sh.objects, i) && keys[i] in sh.objects {
      assert i in rows && RowOk(c, rows[i], sh.objects, sh.completions[i], i);
    }
    assert Fetch(sh.objects, keys) == Assembled(c, sh.objects);
  }

  lemma MergeKeysKeeps(c: Config, sh: Shared, keys: seq<string>)
    requires SharedOk(c, sh) && PlaceOk(c, sh, MergeKeys(keys)) && Fetchable(sh.objects, keys)
    requires MergedRight(c, sh, Fetch(sh.objects, keys))
    ensures TurnOk(c, sh, MergeKeys(keys), MergeTurn(c, sh, MergeKeys(keys), true))
  {
    var audio := Fetch(sh.objects, keys);
    var sh' := sh.(output := Some(audio), merges := sh.merges + [audio]);
    forall k | 0 <= k < |sh'.merges| ensures MergedRight(c, sh', sh'.merges[k]) {
      assert k < |sh.merges| ==> MergedRight(c, sh, sh.merges[k]);
    }
  }

  lemma CompleteRunKeeps(c: Config, sh: Shared, key: string)
    requires SharedOk(c, sh) && PlaceOk(c, sh, CompleteRun(key))
    ensures TurnOk(c, sh, CompleteRun(key), Outcome(WithTables(sh, CompleteJob(sh.tables, key)), CleanUp))
  {
    var sh' := WithTables(sh, CompleteJob(sh.tables, key));
    JobRowEvolves(c, sh, sh');
    MergedStays(c, sh, sh', sh.output.value);
    JobRowOnly(c, sh, sh');
  }

  lemma FailRunKeeps(c: Config, sh: Shared)
    requires SharedOk(c, sh)
    ensures TurnOk(c, sh, FailRun, Outcome(WithTables(sh, FailJob(sh.tables)), CleanUp))
  {
    var sh' := WithTables(sh, FailJob(sh.tables));
    assert StatusFacts(c, sh');
    JobRowOnly(c, sh, sh');
  }

  lemma ListKeysKeeps(c: Config, sh: Shared, ok: bool)
    requires KeysOk(c) && SharedOk(c, sh) && PlaceOk(c, sh, ListKeys)
    ensures TurnOk(c, sh, ListKeys, MergeTurn(c, sh, ListKeys, ok))
  {
    ReadyToMerge(c, sh);
    ReadKeeps(c, sh, ListKeys, MergeKeys(Keys(sh.tables.rows)));
  }

  lemma MergeKeysTurnKeeps(c: Config, sh: Shared, keys: seq<string>, ok: bool)
    requires SharedOk(c, sh) && PlaceOk(c, sh, MergeKeys(keys))
    ensures TurnOk(c, sh, MergeKeys(keys), MergeTurn(c, sh, MergeKeys(keys), ok))
  {
    KeysFetchable(c, sh, keys);
    if ok {
      MergeKeysKeeps(c, sh, keys);
    } else {
      ReadKeeps(c, sh, MergeKeys(keys), FailRun);
    }
  }

  lemma BeginMergeTurnKeeps(c: Config, sh: Shared, loaded: Status, ok: bool)
    requires SharedOk(c, sh) && PlaceOk(c, sh, BeginMerge(loaded))
    ensures TurnOk(c, sh, BeginMerge(loaded), MergeTurn(c, sh, BeginMerge(loaded), ok))
  {
    var at := BeginMerge(loaded);
    if !loaded.Terminal() && sh.tables.job.status.Synthesizing? { BeginMergeKeeps(c, sh, loaded); }
    else if loaded.Merging? { ReadKeeps(c, sh, at, ListKeys); }
    else { ReadKeeps(c, sh, at, Acknowledge); }
  }

  lemma MergeTurnKeeps(c: Config, sh: Shared, at: Place, ok: bool)
    requires KeysOk(c) && InMerge(at) && SharedOk(c, sh) && PlaceOk(c, sh, at)
    ensures TurnOk(c, sh, at, MergeTurn(c, sh, at, ok))
  {
    match at
    case BeginMerge(loaded) => BeginMergeTurnKeeps(c, sh, loaded, ok);
    case ListKeys => ListKeysKeeps(c, sh, ok);
    case MergeKeys(keys) => MergeKeysTurnKeeps(c, sh, keys, ok);
    case CompleteRun(key) => CompleteRunKeeps(c, sh, key);
  }

  lemma CleanUpKeeps(c: Config, sh: Shared, ok: bool)
    requires SharedOk(c, sh) && PlaceOk(c, sh, CleanUp)
    ensures TurnOk(c, sh, CleanUp, CloseTurn(sh, CleanUp, ok))
  {
    ClosedKeeps(c, sh, if ok then sh.(text := false) else sh);
  }

  lemma NotifyKeeps(c: Config, sh: Shared, ok: bool)
    requires SharedOk(c, sh) && PlaceOk(c, sh, Notify)
    ensures TurnOk(c, sh, Notify, CloseTurn(sh, Notify, ok))
  {
    ClosedKeeps(c, sh, if ok then sh.(notices := sh.notices + [sh.tables.job.status]) else sh);
  }

  lemma CloseTurnKeeps(c: Config, sh: Shared, at: Place, ok: bool)
    requires InClose(at) && SharedOk(c, sh) && PlaceOk(c, sh, at)
    ensures TurnOk(c, sh, at, CloseTurn(sh, at, ok))
  {
    match at
    case FailRun => FailRunKeeps(c, sh);
    case CleanUp => CleanUpKeeps(c, sh, ok);
    case Notify => NotifyKeeps(c, sh, ok);
    case Acknowledge => ReadKeeps(c, sh, at, at);
  }

  lemma ClosedKeeps(c: Config, sh: Shared, sh': Shared)
    requires SharedOk(c, sh) && sh.tables.job.status.Terminal()
    requires sh' == sh || sh' == sh.(text := false) || sh' == sh.(notices := sh.notices + [sh.tables.job.status])
    ensures SharedOk(c, sh') && Evolves(c, sh, sh')
    ensures forall own :: LeavesOthers(c, sh, sh', own)
  {
    JobRowEvolves(c, sh, sh');
    if sh.tables.job.status.Completed? {
      MergedStays(c, sh, sh', sh.output.value);
    }
    JobRowOnly(c, sh, sh');
  }

  lemma NothingMergedYet(c: Config, sh: Shared)
    requires SharedOk(c, sh)
    ensures sh.merges != [] ==> AllDone(c, sh.tables)
  {
    if sh.merges != [] {
      assert MergedRight(c, sh, sh.merges[0]);
    }
  }
}
