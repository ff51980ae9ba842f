/** The orchestrators of several replicas working on one job.

    Every store, stream, object-store or engine call of a handler is one atomic step; a process
    is the stream entry it holds plus the place its handler has reached. Between any two steps
    other processes may run, processes may die, entries may be redelivered or lost, the
    reconciler may re-queue the job and the tenant may cancel it. */
module JobProtocol {
  import opened Basics
  import opened JobTables

  /** Fixed for one job: what segmentation of its text yields, and where its objects live. */
  datatype Config = Config(pieces: seq<string>, segmentKey: nat -> string, outputKey: string)

  /** All the protocol needs of the object layout. */
  ghost predicate KeysOk(c: Config) {
    && (forall i: nat :: c.segmentKey(i) != "")
    && (forall i: nat, j: nat :: c.segmentKey(i) == c.segmentKey(j) ==> i == j)
  }

  /** The layout `jobs/{tenant}/{job}/seg/{seq}.pcm` meets it. */
  lemma LayoutOk(pieces: seq<string>, prefix: string)
    ensures KeysOk(Config(pieces, (i: nat) => SegmentKey(prefix, i), OutputKey(prefix)))
  {
    forall i: nat, j: nat | SegmentKey(prefix, i) == SegmentKey(prefix, j) ensures i == j {
      SegmentKeyInjective(prefix, i, j);
    }
  }

  /** One rendition of a piece. The engine may render the same text differently each time. */
  datatype Audio = Audio(text: string, take: nat)

  datatype Entry = JobEntry | SegmentEntry(seqNo: nat)

  /** What the replicas share. `merges`, `completions` and `notices` record, in order, the
      audio handed to each merge, the segments completed and the statuses announced. */
  datatype Shared = Shared(
    tables: Tables,
    text: bool,
    objects: map<string, Audio>,
    output: Option<seq<Audio>>,
    jobStream: nat,
    segmentStream: multiset<nat>,
    notices: seq<Status>,
    merges: seq<seq<Audio>>,
    completions: multiset<nat>)

  /** The next call a handler will make. */
  datatype Place =
    | LoadJob                                   // handleJob
    | Advance
    | ReadInput
    | SplitInput
    | CreateRow(next: nat)
    | SetTotal
    | Reload
    | FanOut(loaded: Status)                    // fanOut
    | Publish(todo: seq<nat>)
    | LoadForSegment(seqNo: nat)                // handleSegment
    | Claim(seqNo: nat)
    | FindRow(seqNo: nat)
    | ReadText(seqNo: nat, attempts: nat)
    | SplitText(seqNo: nat, attempts: nat)
    | Render(seqNo: nat, attempts: nat)
    | CompleteRow(seqNo: nat, key: string)
    | CountLeft
    | ReloadDone
    | FailRow(seqNo: nat, attempts: nat)        // retryOrFail
    | Requeue(seqNo: nat)
    | BeginMerge(loaded: Status)                // finish
    | ListKeys
    | MergeKeys(keys: seq<string>)
    | CompleteRun(key: string)
    | FailRun                                   // failJob
    | CleanUp
    | Notify
    | Acknowledge                               // consume

  datatype Process = Idle | Busy(entry: Entry, at: Place)

  datatype State = State(shared: Shared, processes: seq<Process>)

  // Shared-state updates other than the job tables.

  function WithTables(sh: Shared, t: Tables): Shared {
    sh.(tables := t)
  }

  function Enqueue(sh: Shared, e: Entry): Shared {
    match e
    case JobEntry => sh.(jobStream := sh.jobStream + 1)
    case SegmentEntry(i) => sh.(segmentStream := sh.segmentStream + multiset{i})
  }

  predicate InStream(sh: Shared, e: Entry) {
    match e
    case JobEntry => sh.jobStream > 0
    case SegmentEntry(i) => i in sh.segmentStream
  }

  function Dequeue(sh: Shared, e: Entry): Shared
    requires InStream(sh, e)
  {
    match e
    case JobEntry => sh.(jobStream := sh.jobStream - 1)
    case SegmentEntry(i) => sh.(segmentStream := sh.segmentStream - multiset{i})
  }

  /** The segments fan-out still has to queue, in order. */
  ghost function Todo(rows: Rows): (todo: seq<nat>)
    ensures forall i :: i in todo <==> i in rows && !rows[i].status.Done?
    ensures |todo| <= |rows|
  {
    SubsetSize(UnfinishedRows(rows), rows.Keys);
    Listing(UnfinishedRows(rows))
  }

  /** Every listed row is done and has a key: the merge may start. */
  predicate Mergeable(rows: Rows) {
    forall i | i in rows :: rows[i].status.Done? && rows[i].key != ""
  }

  ghost function Keys(rows: Rows): (keys: seq<string>)
    ensures |keys| == |rows|
  {
    var order := Listing(rows.Keys);
    seq(|order|, i requires 0 <= i < |order| => assert order[i] in order; rows[order[i]].key)
  }

  predicate Fetchable(objects: map<string, Audio>, keys: seq<string>) {
    forall i | 0 <= i < |keys| :: keys[i] in objects
  }

  function Fetch(objects: map<string, Audio>, keys: seq<string>): (audio: seq<Audio>)
    requires Fetchable(objects, keys)
  {
    seq(|keys|, i requires 0 <= i < |keys| => objects[keys[i]])
  }

  // The handlers. `ok` is how an engine, object-store or notifier call went; `take` picks the
  // rendition when it is a synthesis.

  datatype Outcome = Outcome(shared: Shared, at: Place)

  predicate InSegmenting(at: Place) {
    at.LoadJob? || at.Advance? || at.ReadInput? || at.SplitInput? || at.CreateRow? || at.SetTotal?
  }

  function SegmentingTurn(c: Config, sh: Shared, at: Place, ok: bool): Outcome
    requires InSegmenting(at)
  {
    var status := sh.tables.job.status;
    match at
    case LoadJob =>
      Outcome(sh, if status.Terminal() then Acknowledge
              else if status.Synthesizing? || status.Merging? then FanOut(status)
              else if status.Segmenting? then ReadInput
              else Advance)
    case Advance =>
      if status.Queued?
      then Outcome(WithTables(sh, TransitionJob(sh.tables, Queued, Segmenting)), ReadInput)
      else Outcome(sh, Acknowledge)
    case ReadInput =>
      Outcome(sh, if ok && sh.text then SplitInput else FailRun)
    case SplitInput =>
      Outcome(sh, if ok && 0 < |c.pieces| <= MaxJobChars then CreateRow(0) else FailRun)
    case CreateRow(i) =>
      if i < |c.pieces|
      then Outcome(WithTables(sh, CreateSegment(sh.tables, i)), CreateRow(i + 1))
      else Outcome(sh, SetTotal)
    case SetTotal =>
      Outcome(WithTables(sh, SetSegmentsTotal(sh.tables, |c.pieces|)), Reload)
  }

  predicate InFanOut(at: Place) {
    at.Reload? || at.FanOut? || at.Publish?
  }

  ghost function FanOutTurn(sh: Shared, at: Place): Outcome
    requires InFanOut(at)
  {
    match at
    case Reload =>
      Outcome(sh, FanOut(sh.tables.job.status))
    case FanOut(loaded) =>
      var todo := Todo(sh.tables.rows);
      Outcome(sh, if todo == [] then BeginMerge(loaded) else Publish(todo))
    case Publish(todo) =>
      if todo == [] then Outcome(sh, Acknowledge)
      else Outcome(Enqueue(sh, SegmentEntry(todo[0])), Publish(todo[1..]))
  }

  predicate InAttempt(at: Place) {
    at.LoadForSegment? || at.Claim? || at.FindRow? || at.ReadText? || at.SplitText? || at.Render?
  }

  function AttemptTurn(c: Config, sh: Shared, at: Place, ok: bool, take: nat): Outcome
    requires InAttempt(at)
  {
    var t := sh.tables;
    match at
    case LoadForSegment(i) =>
      Outcome(sh, if t.job.status.Terminal() then Acknowledge else Claim(i))
    case Claim(i) =>
      if ClaimAffects(t, i) then Outcome(WithTables(sh, ClaimSegment(t, i)), FindRow(i))
      else Outcome(sh, Acknowledge)
    case FindRow(i) =>
      Outcome(sh, if i in t.rows then ReadText(i, t.rows[i].attempts) else Acknowledge)
    case ReadText(i, a) =>
      Outcome(sh, if ok && sh.text then SplitText(i, a) else FailRow(i, a))
    case SplitText(i, a) =>
      Outcome(sh, if ok && i < |c.pieces| then Render(i, a) else FailRow(i, a))
    case Render(i, a) =>
      if ok && i < |c.pieces| then
        var key := c.segmentKey(i);
        Outcome(sh.(objects := sh.objects[key := Audio(c.pieces[i], take)]), CompleteRow(i, key))
      else Outcome(sh, FailRow(i, a))
  }

  predicate InSettle(at: Place) {
    at.CompleteRow? || at.CountLeft? || at.ReloadDone? || at.FailRow? || at.Requeue?
  }

  function SettleTurn(sh: Shared, at: Place): Outcome
    requires InSettle(at)
  {
    var t := sh.tables;
    match at
    case CompleteRow(i, key) =>
      var done := if CompleteAffects(t, i) then multiset{i} else multiset{};
      Outcome(sh.(tables := CompleteSegment(t, i, key), completions := sh.completions + done), CountLeft)
    case CountLeft =>
      Outcome(sh, if UnfinishedRows(t.rows) != {} then Acknowledge else ReloadDone)
    case ReloadDone =>
      Outcome(sh, BeginMerge(t.job.status))
    case FailRow(i, a) =>
      Outcome(WithTables(sh, FailSegment(t, i)), if a >= MaxSegmentAttempts then FailRun else Requeue(i))
    case Requeue(i) =>
      Outcome(Enqueue(sh, SegmentEntry(i)), Acknowledge)
  }

  predicate InMerge(at: Place) {
    at.BeginMerge? || at.ListKeys? || at.MergeKeys? || at.CompleteRun?
  }

  ghost function MergeTurn(c: Config, sh: Shared, at: Place, ok: bool): Outcome
    requires InMerge(at)
  {
    var t := sh.tables;
    match at
    case BeginMerge(loaded) =>
      if loaded.Terminal() then Outcome(sh, Acknowledge)
      else if t.job.status.Synthesizing? then
        Outcome(WithTables(sh, TransitionJob(t, Synthesizing, Merging)), ListKeys)
      else Outcome(sh, if loaded.Merging? then ListKeys else Acknowledge)
    case ListKeys =>
      Outcome(sh, if Mergeable(t.rows) then MergeKeys(Keys(t.rows)) else FailRun)
    case MergeKeys(keys) =>
      if ok && Fetchable(sh.objects, keys) then
        var audio := Fetch(sh.objects, keys);
        Outcome(sh.(output := Some(audio), merges := sh.merges + [audio]), CompleteRun(c.outputKey))
      else Outcome(sh, FailRun)
    case CompleteRun(key) =>
      Outcome(WithTables(sh, CompleteJob(t, key)), CleanUp)
  }

  predicate InClose(at: Place) {
    at.FailRun? || at.CleanUp? || at.Notify? || at.Acknowledge?
  }

  function CloseTurn(sh: Shared, at: Place, ok: bool): Outcome
    requires InClose(at)
  {
    match at
    case FailRun =>
      Outcome(WithTables(sh, FailJob(sh.tables)), CleanUp)
    case CleanUp =>
      Outcome(if ok then sh.(text := false) else sh, Notify)
    case Notify =>
      Outcome(if ok then sh.(notices := sh.notices + [sh.tables.job.status]) else sh, Acknowledge)
    case Acknowledge =>
      Outcome(sh, Acknowledge)
  }

  ghost function Turn(c: Config, sh: Shared, at: Place, ok: bool, take: nat): Outcome {
    if InSegmenting(at) then SegmentingTurn(c, sh, at, ok)
    else if InFanOut(at) then FanOutTurn(sh, at)
    else if InAttempt(at) then AttemptTurn(c, sh, at, ok, take)
    else if InSettle(at) then SettleTurn(sh, at)
    else if InMerge(at) then MergeTurn(c, sh, at, ok)
    else CloseTurn(sh, at, ok)
  }

  // Whole-system steps.

  datatype Event =
    | Deliver(p: nat, entry: Entry)
    | Step(p: nat, ok: bool, take: nat)
    | Crash(p: nat)                 // the process dies; its entry stays pending and is claimed again
    | GiveUp(p: nat)                // a store or stream call returned an error; the entry is acknowledged
    | Redeliver(p: nat)             // a slow process's entry is claimed by someone else as stale
    | Lose(entry: Entry)            // stream trimming
    | Reconcile
    | Cancel

  predicate Enabled(s: State, e: Event) {
    match e
    case Deliver(p, entry) => p < |s.processes| && s.processes[p].Idle? && InStream(s.shared, entry)
    case Step(p, _, _) => p < |s.processes| && s.processes[p].Busy?
    case Crash(p) => p < |s.processes| && s.processes[p].Busy?
    case GiveUp(p) => p < |s.processes| && s.processes[p].Busy?
    case Redeliver(p) => p < |s.processes| && s.processes[p].Busy?
    case Lose(entry) => InStream(s.shared, entry)
    case Reconcile => true
    case Cancel => true
  }

  function Start(e: Entry): Place {
    match e
    case JobEntry => LoadJob
    case SegmentEntry(i) => LoadForSegment(i)
  }

  ghost function Apply(c: Config, s: State, e: Event): State
    requires Enabled(s, e)
  {
    match e
    case Deliver(p, entry) =>
      State(Dequeue(s.shared, entry), s.processes[p := Busy(entry, Start(entry))])
    case Step(p, ok, take) =>
      var proc := s.processes[p];
      if proc.at.Acknowledge? then s.(processes := s.processes[p := Idle])
      else
        var o := Turn(c, s.shared, proc.at, ok, take);
        State(o.shared, s.processes[p := proc.(at := o.at)])
    case Crash(p) =>
      State(Enqueue(s.shared, s.processes[p].entry), s.processes[p := Idle])
    case GiveUp(p) =>
      s.(processes := s.processes[p := s.processes[p].(at := Acknowledge)])
    case Redeliver(p) =>
      s.(shared := Enqueue(s.shared, s.processes[p].entry))
    case Lose(entry) =>
      s.(shared := Dequeue(s.shared, entry))
    case Reconcile =>
      s.(shared := Enqueue(s.shared, JobEntry))
    case Cancel =>
      s.(shared := WithTables(s.shared, CancelJob(s.shared.tables)))
  }

  /** A freshly submitted job: a queued row, its text stored, nothing running. */
  predicate Initial(s: State) {
    && s.shared.tables == Tables(Job(Queued, None, 0, ""), map[])
    && s.shared.text
    && s.shared.objects == map[]
    && s.shared.output == None
    && s.shared.segmentStream == multiset{}
    && s.shared.notices == []
    && s.shared.merges == []
    && s.shared.completions == multiset{}
    && forall p | 0 <= p < |s.processes| :: s.processes[p].Idle?
  }

  /** A run: consecutive states linked by enabled events. */
  ghost predicate IsRun(c: Config, run: seq<State>, events: seq<Event>) {
    && |run| == |events| + 1
    && forall k | 0 <= k < |events| :: Enabled(run[k], events[k]) && run[k + 1] == Apply(c, run[k], events[k])
  }
}
