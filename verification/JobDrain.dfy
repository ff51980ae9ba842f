/** One orchestrator working alone through a fresh job, with no crash and no store error: the
    handlers as they are written, and what the job's outcome is as a function of what the
    engine will answer. */
module JobDrain {
  import opened Basics
  import opened JobTables
  import opened JobStorage
  import JobProtocol
  import JobRecovery
  import JobRuns

  /** What the outside world will answer. The attempt number is the one the claim produced. */
  datatype World = World(
    inputReadable: bool,
    inputSplits: bool,
    pieces: seq<string>,
    textReadable: (nat, nat) -> bool,
    textSplits: (nat, nat) -> bool,
    synthesizes: (nat, nat) -> bool,
    merges: bool,
    prefix: string)
  {
    predicate AttemptOk(i: nat, attempt: nat) {
      textReadable(i, attempt) && textSplits(i, attempt) && synthesizes(i, attempt)
    }

    predicate SegmentOk(i: nat) {
      AttemptOk(i, 1) || AttemptOk(i, 2) || AttemptOk(i, 3)
    }

    predicate InputOk() {
      inputReadable && inputSplits && 0 < |pieces| <= MaxJobChars
    }

    /** The condition for a job to complete, known before the first step. */
    predicate Completes() {
      InputOk() && merges && forall i | 0 <= i < |pieces| :: SegmentOk(i)
    }
  }

  function AttemptsMade(rows: Rows, i: nat): nat {
    if i in rows then rows[i].attempts else 0
  }

  function TotalAttempts(rows: Rows, n: nat): nat {
    if n == 0 then 0 else TotalAttempts(rows, n - 1) + AttemptsMade(rows, n - 1)
  }

  lemma {:induction false} AttemptsUpdate(rows: Rows, rows': Rows, n: nat, i: nat)
    requires i < n && forall k | 0 <= k < n && k != i :: AttemptsMade(rows', k) == AttemptsMade(rows, k)
    ensures TotalAttempts(rows', n) + AttemptsMade(rows, i) == TotalAttempts(rows, n) + AttemptsMade(rows', i)
  {
    if i == n - 1 { AttemptsSame(rows, rows', n - 1); } else { AttemptsUpdate(rows, rows', n - 1, i); }
  }

  lemma {:induction false} AttemptsSame(rows: Rows, rows': Rows, n: nat)
    requires forall k | 0 <= k < n :: AttemptsMade(rows', k) == AttemptsMade(rows, k)
    ensures TotalAttempts(rows', n) == TotalAttempts(rows, n)
  {
    if n > 0 { AttemptsSame(rows, rows', n - 1); }
  }

  lemma {:induction false} AttemptsBound(rows: Rows, n: nat)
    requires forall k | 0 <= k < n :: AttemptsMade(rows, k) <= MaxSegmentAttempts
    ensures TotalAttempts(rows, n) <= 3 * n
  {
    if n > 0 { AttemptsBound(rows, n - 1); }
  }

  /** What the rows of a live job say about the past: a done row succeeded at its last attempt,
      an unfinished one failed every attempt so far and has one left. */
  predicate RowHistory(w: World, row: Segment, i: nat) {
    && row.attempts <= MaxSegmentAttempts
    && (row.status.Done? ==> row.attempts >= 1 && row.key != "" && w.AttemptOk(i, row.attempts))
    && (!row.status.Done? ==>
          row.Claimable() && row.attempts < MaxSegmentAttempts
          && forall k | 1 <= k <= row.attempts :: !w.AttemptOk(i, k))
  }

  /** Rows 0..n-1 exist, some are unfinished, and the stream holds exactly those, once each. */
  ghost predicate InProgress(w: World, rows: Rows, stream: seq<nat>) {
    && w.InputOk() && stream != []
    && (forall i: nat :: i in rows <==> i < |w.pieces|)
    && (forall i | i in rows :: RowHistory(w, rows[i], i))
    && (forall i: nat :: i in stream <==> i in rows && !rows[i].status.Done?)
    && (forall j, k | 0 <= j < k < |stream| :: stream[j] != stream[k])
  }

  /** The last segment came in: every segment succeeded, so the merge decides. */
  lemma LastSegmentDecides(w: World, rows: Rows, rows': Rows, stream: seq<nat>, i: nat)
    requires InProgress(w, rows, stream) && i in stream && w.AttemptOk(i, rows[i].attempts + 1)
    requires rows' == rows[i := Segment(Done, rows[i].attempts + 1, SegmentKey(w.prefix, i))]
    requires forall k | k in rows' :: rows'[k].status.Done?
    ensures JobProtocol.Mergeable(rows') && (w.Completes() <==> w.merges)
    ensures forall k | k in rows' :: rows'[k].attempts <= MaxSegmentAttempts
  {
    forall k | 0 <= k < |w.pieces| ensures w.SegmentOk(k) {
      assert k in rows && RowHistory(w, rows[k], k);
      var a := rows'[k].attempts;
      assert w.AttemptOk(k, a) && (a == 1 || a == 2 || a == 3);
    }
  }

  /** The third failure of a segment: the job cannot complete. */
  lemma ThirdFailureDecides(w: World, rows: Rows, stream: seq<nat>, i: nat)
    requires InProgress(w, rows, stream) && i in stream
    requires !w.AttemptOk(i, rows[i].attempts + 1) && rows[i].attempts + 1 >= MaxSegmentAttempts
    ensures rows[i].attempts == 2 && !w.Completes()
  {
    assert RowHistory(w, rows[i], i);
    assert !w.AttemptOk(i, 1) && !w.AttemptOk(i, 2) && !w.AttemptOk(i, 3);
    assert !w.SegmentOk(i);
  }

  lemma SuccessKeepsProgress(w: World, rows: Rows, rows': Rows, stream: seq<nat>)
    requires InProgress(w, rows, stream)
    requires w.AttemptOk(stream[0], rows[stream[0]].attempts + 1)
    requires rows' == rows[stream[0] := Segment(Done, rows[stream[0]].attempts + 1, SegmentKey(w.prefix, stream[0]))]
    requires exists k :: k in rows' && !rows'[k].status.Done?
    ensures InProgress(w, rows', stream[1..])
  {
    var i, rest := stream[0], stream[1..];
    assert RowHistory(w, rows[i], i);
    forall k: nat ensures k in rest <==> k in rows' && !rows'[k].status.Done? {
      assert k in stream <==> k == i || k in rest;
    }
  }

  lemma RetryKeepsProgress(w: World, rows: Rows, rows': Rows, stream: seq<nat>)
    requires InProgress(w, rows, stream)
    requires !w.AttemptOk(stream[0], rows[stream[0]].attempts + 1) && rows[stream[0]].attempts < 2
    requires rows' == rows[stream[0] := rows[stream[0]].(status := Broken, attempts := rows[stream[0]].attempts + 1)]
    ensures InProgress(w, rows', stream[1..] + [stream[0]])
  {
    var i, rest := stream[0], stream[1..];
    assert RowHistory(w, rows[i], i);
    forall k: nat ensures k in rest + [i] <==> k in rows' && !rows'[k].status.Done? {
      assert k in stream <==> k == i || k in rest;
    }
  }

  lemma RetryCosts(w: World, rows: Rows, rows': Rows, stream: seq<nat>)
    requires InProgress(w, rows, stream)
    requires rows[stream[0]].attempts < 2
    requires rows' == rows[stream[0] := rows[stream[0]].(status := Broken, attempts := rows[stream[0]].attempts + 1)]
    ensures JobRecovery.AllRetriesLeft(rows', |w.pieces|) < JobRecovery.AllRetriesLeft(rows, |w.pieces|)
  {
    var i := stream[0];
    assert i in stream && RowHistory(w, rows[i], i);
    JobRecovery.RetriesUpdate(rows, rows', |w.pieces|, i);
  }

  lemma SettlingCosts(rows: Rows, rows': Rows, n: nat, i: nat)
    requires i < n && i in rows && i in rows' && forall k | k in rows && k != i :: k in rows' && rows'[k] == rows[k]
    requires rows'.Keys == rows.Keys
    requires JobRecovery.RetriesLeft(rows', i) <= JobRecovery.RetriesLeft(rows, i)
    ensures JobRecovery.AllRetriesLeft(rows', n) <= JobRecovery.AllRetriesLeft(rows, n)
  {
    JobRecovery.RetriesUpdate(rows, rows', n, i);
  }

  /** What handling the oldest entry does to the rows, the status and the stream. */
  ghost predicate Attempted(w: World, rows: Rows, stream: seq<nat>, rows': Rows, status': Status, stream': seq<nat>)
    requires InProgress(w, rows, stream)
  {
    var i := stream[0];
    var a := rows[i].attempts + 1;
    if w.AttemptOk(i, a) then
      && rows' == rows[i := Segment(Done, a, SegmentKey(w.prefix, i))]
      && stream' == stream[1..]
      && status' == (if exists k :: k in rows' && !rows'[k].status.Done? then Synthesizing
                     else if JobProtocol.Mergeable(rows') && w.merges then Completed else Failed)
    else
      && rows' == rows[i := rows[i].(status := Broken, attempts := a)]
      && (if a >= MaxSegmentAttempts then status' == Failed && stream' == stream[1..]
          else status' == Synthesizing && stream' == stream[1..] + [i])
  }

  /** What an attempt must leave behind: a live job with less work left, or the foretold outcome. */
  ghost predicate Settled(w: World, rows: Rows, stream: seq<nat>, rows': Rows, status': Status, stream': seq<nat>) {
    if status'.Synthesizing? then
      && InProgress(w, rows', stream')
      && |stream'| + JobRecovery.AllRetriesLeft(rows', |w.pieces|)
       < |stream| + JobRecovery.AllRetriesLeft(rows, |w.pieces|)
    else
      && status' == (if w.Completes() then Completed else Failed)
      && |stream'| < |stream| && forall k | k in rows' :: rows'[k].attempts <= MaxSegmentAttempts
  }

  lemma SuccessSettles(w: World, rows: Rows, stream: seq<nat>, rows': Rows, status': Status, stream': seq<nat>)
    requires InProgress(w, rows, stream) && Attempted(w, rows, stream, rows', status', stream')
    requires w.AttemptOk(stream[0], rows[stream[0]].attempts + 1)
    ensures Settled(w, rows, stream, rows', status', stream')
  {
    var i := stream[0];
    assert i in stream && RowHistory(w, rows[i], i);
    SettlingCosts(rows, rows', |w.pieces|, i);
    if status'.Synthesizing? {
      SuccessKeepsProgress(w, rows, rows', stream);
    } else {
      LastSegmentDecides(w, rows, rows', stream, i);
    }
  }

  lemma FailureSettles(w: World, rows: Rows, stream: seq<nat>, rows': Rows, status': Status, stream': seq<nat>)
    requires InProgress(w, rows, stream) && Attempted(w, rows, stream, rows', status', stream')
    requires !w.AttemptOk(stream[0], rows[stream[0]].attempts + 1)
    ensures Settled(w, rows, stream, rows', status', stream')
  {
    var i := stream[0];
    assert i in stream && RowHistory(w, rows[i], i);
    if rows[i].attempts + 1 >= MaxSegmentAttempts {
      ThirdFailureDecides(w, rows, stream, i);
    } else {
      RetryKeepsProgress(w, rows, rows', stream);
      RetryCosts(w, rows, rows', stream);
    }
  }

  /** Either the job goes on with less work left, or it is over with the foretold outcome. */
  lemma AttemptSettles(w: World, rows: Rows, stream: seq<nat>, rows': Rows, status': Status, stream': seq<nat>)
    requires InProgress(w, rows, stream) && Attempted(w, rows, stream, rows', status', stream')
    ensures TotalAttempts(rows', |w.pieces|) == TotalAttempts(rows, |w.pieces|) + 1
    ensures Settled(w, rows, stream, rows', status', stream')
  {
    var i := stream[0];
    assert i in stream && RowHistory(w, rows[i], i);
    AttemptsUpdate(rows, rows', |w.pieces|, i);
    if w.AttemptOk(i, rows[i].attempts + 1) {
      SuccessSettles(w, rows, stream, rows', status', stream');
    } else {
      FailureSettles(w, rows, stream, rows', status', stream');
    }
  }

  class Orchestrator {
    const world: World
    const store: JobStore
    var segmentStream: seq<nat>
    var text: bool
    var notices: seq<Status>
    var syntheses: nat

    constructor (world: World)
      ensures this.world == world && fresh(store)
      ensures store.View() == Tables(Job(Queued, None, 0, ""), map[])
      ensures segmentStream == [] && text && notices == [] && syntheses == 0
    {
      this.world := world;
      store := new JobStore();
      segmentStream := [];
      text := true;
      notices := [];
      syntheses := 0;
    }

    /** A live job between two handlers. */
    ghost predicate Working()
      reads this, store
    {
      && text && notices == []
      && store.job.status.Synthesizing?
      && InProgress(world, store.rows, segmentStream)
    }

    /** A finished job: the outcome is the one foretold, the text is gone, it was announced once. */
    ghost predicate Over()
      reads this, store
    {
      && store.job.status == (if world.Completes() then Completed else Failed)
      && !text && notices == [store.job.status]
      && forall i | i in store.rows :: store.rows[i].attempts <= MaxSegmentAttempts
    }

    ghost predicate Counted()
      reads this, store
    {
      syntheses <= TotalAttempts(store.rows, |world.pieces|)
    }

    method FailRun()
      modifies this, store
      ensures store.View() == FailJob(old(store.View()))
      ensures segmentStream == old(segmentStream) && syntheses == old(syntheses)
      ensures !text && notices == old(notices) + [store.job.status]
    {
      store.Fail();
      text := false;
      notices := notices + [store.job.status];
    }

    ghost predicate MayFinish(loaded: Status)
      reads this, store
    {
      !loaded.Terminal() && (store.job.status.Synthesizing? || loaded.Merging?)
    }

    ghost function Finished(): Tables
      reads this, store
    {
      var t := TransitionJob(store.View(), Synthesizing, Merging);
      if JobProtocol.Mergeable(store.rows) && world.merges then CompleteJob(t, OutputKey(world.prefix)) else FailJob(t)
    }

    /** Lists the keys in order, stopping at the first row that is not ready. */
    method CollectKeys() returns (ready: bool, keys: seq<string>)
      ensures ready <==> JobProtocol.Mergeable(store.rows)
      ensures ready ==> keys == JobProtocol.Keys(store.rows)
    {
      var order := store.List();
      var k := 0;
      keys := [];
      while k < |order|
        invariant 0 <= k <= |order| && |keys| == k
        invariant forall j | 0 <= j < k :: order[j] in store.rows && keys[j] == store.rows[order[j]].key
        invariant forall j | 0 <= j < k :: store.rows[order[j]].status.Done? && store.rows[order[j]].key != ""
      {
        assert order[k] in order;
        var row := store.rows[order[k]];
        if !row.status.Done? || row.key == "" {
          return false, keys;
        }
        keys := keys + [row.key];
        k := k + 1;
      }
      ready := true;
      CollectedAll(store.rows, order, keys);
    }

    /** `loaded` is the status the caller last read. */
    method Finish(loaded: Status)
      modifies this, store
      ensures segmentStream == old(segmentStream) && syntheses == old(syntheses)
      ensures old(MayFinish(loaded)) ==>
                store.View() == old(Finished()) && !text && notices == old(notices) + [store.job.status]
      ensures !old(MayFinish(loaded)) ==>
                store.View() == old(store.View()) && text == old(text) && notices == old(notices)
    {
      if loaded.Terminal() {
        return;
      }
      var moved := store.Transition(Synthesizing, Merging);
      if !moved && !loaded.Merging? {
        return;
      }
      var ready, keys := CollectKeys();
      if !ready || !world.merges {
        FailRun();
        return;
      }
      store.Complete(OutputKey(world.prefix));
      text := false;
      notices := notices + [store.job.status];
    }

    /** Queues every listed row that is not done. */
    method Publish(rows: Rows, order: seq<nat>) returns (queued: nat)
      requires Listed(rows, order)
      modifies this`segmentStream
      ensures segmentStream == old(segmentStream) + Unfinished(rows, order)
      ensures queued == |Unfinished(rows, order)|
    {
      var k := 0;
      queued := 0;
      while k < |order|
        invariant 0 <= k <= |order|
        invariant segmentStream == old(segmentStream) + Unfinished(rows, order[..k])
        invariant queued == |Unfinished(rows, order[..k])|
      {
        UnfinishedStep(rows, order, k);
        if !rows[order[k]].status.Done? {
          segmentStream := segmentStream + [order[k]];
          queued := queued + 1;
        }
        k := k + 1;
      }
      assert order[..k] == order;
    }

    method PublishAll() returns (queued: nat)
      modifies this`segmentStream
      ensures segmentStream == old(segmentStream) + JobProtocol.Todo(store.rows)
      ensures queued == |JobProtocol.Todo(store.rows)|
    {
      ListedInOrder(store.rows);
      queued := Publish(store.rows, store.List());
    }

    /** Queues what is unfinished; with nothing left to queue, finishes. */
    method FanOut(loaded: Status)
      modifies this, store
      ensures syntheses == old(syntheses)
      ensures segmentStream == old(segmentStream + JobProtocol.Todo(store.rows))
      ensures old(JobProtocol.Todo(store.rows) == [] && MayFinish(loaded)) ==>
                store.View() == old(Finished()) && !text && notices == old(notices) + [store.job.status]
      ensures !old(JobProtocol.Todo(store.rows) == [] && MayFinish(loaded)) ==>
                store.View() == old(store.View()) && text == old(text) && notices == old(notices)
    {
      var queued := PublishAll();
      if queued == 0 {
        Finish(loaded);
      }
    }

    /** Inserts one row per piece. */
    method CreateRows()
      modifies store
      ensures store.View() == old(store.View()).(rows := Planned(old(store.rows), |world.pieces|))
    {
      var k := 0;
      while k < |world.pieces|
        invariant 0 <= k <= |world.pieces|
        invariant store.View() == old(store.View()).(rows := Planned(old(store.rows), k))
      {
        PlannedNext(old(store.rows), store.job, k);
        store.Create(k);
        k := k + 1;
      }
    }

    /** The job was fanned out before. */
    ghost predicate Alive()
      reads store
    {
      store.job.status.Synthesizing? || store.job.status.Merging?
    }

    /** The job was finished, as its rows and the merge decided, and announced. */
    ghost predicate EndedBy(before: seq<Status>)
      reads this, store
    {
      && store.job.status == (if JobProtocol.Mergeable(store.rows) && world.merges then Completed else Failed)
      && !text && notices == before + [store.job.status]
    }

    /** Segments a job and fans it out; one that was fanned out before is taken up where it stands. */
    method HandleJob()
      modifies this, store
      ensures syntheses == old(syntheses)
      ensures old(store.job.status.Terminal()) ==>
                store.View() == old(store.View()) && segmentStream == old(segmentStream)
                && text == old(text) && notices == old(notices)
      ensures old(store.job.status.Rank() <= 1 && !(text && world.InputOk())) ==>
                store.job.status.Failed? && store.rows == old(store.rows) && segmentStream == old(segmentStream)
                && !text && notices == old(notices) + [Failed]
      ensures old(store.job.status.Rank() <= 1 && text && world.InputOk()) ==>
                var todo := JobProtocol.Todo(Planned(old(store.rows), |world.pieces|));
                && store.rows == Planned(old(store.rows), |world.pieces|)
                && segmentStream == old(segmentStream) + todo
                && (todo != [] ==> store.job.status.Synthesizing? && text && notices == old(notices))
                && (todo == [] ==> EndedBy(old(notices)))
      ensures old(Alive()) ==> segmentStream == old(segmentStream + JobProtocol.Todo(store.rows))
      ensures old(Alive() && JobProtocol.Todo(store.rows) != []) ==>
                store.View() == old(store.View()) && text == old(text) && notices == old(notices)
      ensures old(Alive() && JobProtocol.Todo(store.rows) == []) ==>
                store.rows == old(store.rows) && EndedBy(old(notices))
    {
      var loaded := store.job.status;
      if loaded.Terminal() {
        return;
      }
      if loaded.Synthesizing? || loaded.Merging? {
        FanOut(loaded);
        return;
      }
      if !loaded.Segmenting? {
        var moved := store.Transition(Queued, Segmenting);
        if !moved {
          return;
        }
      }
      if !text || !world.inputReadable || !world.inputSplits {
        FailRun();
        return;
      }
      if |world.pieces| == 0 || |world.pieces| > MaxJobChars {
        FailRun();
        return;
      }
      Plan();
    }

    /** Creates the rows of a job that is being segmented and fans it out. */
    method Plan()
      requires store.job.status.Segmenting?
      modifies this, store
      ensures syntheses == old(syntheses) && store.rows == Planned(old(store.rows), |world.pieces|)
      ensures segmentStream == old(segmentStream) + JobProtocol.Todo(store.rows)
      ensures JobProtocol.Todo(store.rows) != [] ==>
                store.job.status.Synthesizing? && text == old(text) && notices == old(notices)
      ensures JobProtocol.Todo(store.rows) == [] ==> EndedBy(old(notices))
    {
      CreateRows();
      store.SetTotal(|world.pieces|);
      FanOut(store.job.status);
    }

    /** Puts a segment back, or fails the job once it is out of attempts. */
    method RetryOrFail(seqNo: nat, attempts: nat)
      requires attempts >= 1
      modifies this, store
      ensures syntheses == old(syntheses)
      ensures attempts >= MaxSegmentAttempts ==>
                store.View() == FailJob(FailSegment(old(store.View()), seqNo)) && segmentStream == old(segmentStream)
                && !text && notices == old(notices) + [store.job.status]
      ensures attempts < MaxSegmentAttempts ==>
                store.View() == FailSegment(old(store.View()), seqNo) && segmentStream == old(segmentStream) + [seqNo]
                && text == old(text) && notices == old(notices)
    {
      store.FailRow(seqNo);
      if attempts >= MaxSegmentAttempts {
        FailRun();
        return;
      }
      var wait := JobRuns.SegmentBackoff[JobRuns.BackoffIndex(attempts)];
      segmentStream := segmentStream + [seqNo];
    }

    ghost predicate AttemptWorks(seqNo: nat)
      reads this, store
    {
      seqNo in store.rows && text && seqNo < |world.pieces| && world.AttemptOk(seqNo, store.rows[seqNo].attempts + 1)
    }

    /** Attempts one segment. */
    method HandleSegment(seqNo: nat)
      modifies this, store
      ensures old(syntheses) <= syntheses <= old(syntheses) + 1
      ensures old(store.job.status.Terminal() || !ClaimAffects(store.View(), seqNo)) ==>
                store.View() == old(store.View()) && segmentStream == old(segmentStream)
                && text == old(text) && notices == old(notices) && syntheses == old(syntheses)
      ensures old(!store.job.status.Terminal() && ClaimAffects(store.View(), seqNo)) ==>
                var a := old(store.rows[seqNo].attempts) + 1;
                if old(AttemptWorks(seqNo)) then
                  && store.rows == old(store.rows)[seqNo := Segment(Done, a, SegmentKey(world.prefix, seqNo))]
                  && segmentStream == old(segmentStream)
                  && (if (forall i | i in store.rows :: store.rows[i].status.Done?)
                         && old(store.job.status.Rank() >= 2) then
                        && store.job.status
                           == (if JobProtocol.Mergeable(store.rows) && world.merges then Completed else Failed)
                        && !text && notices == old(notices) + [store.job.status]
                      else
                        store.job.status == old(store.job.status) && text == old(text) && notices == old(notices))
                else
                  && store.rows == old(store.rows)[seqNo := old(store.rows[seqNo]).(status := Broken, attempts := a)]
                  && (if a >= MaxSegmentAttempts then
                        store.job.status.Failed? && segmentStream == old(segmentStream)
                        && !text && notices == old(notices) + [Failed]
                      else
                        store.job == old(store.job) && segmentStream == old(segmentStream) + [seqNo]
                        && text == old(text) && notices == old(notices))
    {
      if store.job.status.Terminal() {
        return;
      }
      var claimed := store.Claim(seqNo);
      if !claimed {
        return;
      }
      var attempts := store.rows[seqNo].attempts;
      if !text || !world.textReadable(seqNo, attempts) {
        RetryOrFail(seqNo, attempts);
        return;
      }
      if !world.textSplits(seqNo, attempts) || seqNo >= |world.pieces| {
        RetryOrFail(seqNo, attempts);
        return;
      }
      syntheses := syntheses + 1;
      if !world.synthesizes(seqNo, attempts) {
        RetryOrFail(seqNo, attempts);
        return;
      }
      store.CompleteRow(seqNo, SegmentKey(world.prefix, seqNo));
      if store.CountUnfinished() > 0 {
        return;
      }
      Finish(store.job.status);
    }

    /** Bounds the handlers still to run. */
    ghost function Left(): nat
      reads this, store
    {
      |segmentStream|
      + if store.job.status.Terminal() then 0 else JobRecovery.AllRetriesLeft(store.rows, |world.pieces|)
    }

    /** Handles the oldest entry of a live job. */
    method NextLive()
      requires Working()
      modifies this, store
      ensures (Working() || Over()) && Left() < old(Left()) && (old(Counted()) ==> Counted())
    {
      ghost var rows, stream := store.rows, segmentStream;
      var i := segmentStream[0];
      assert i in stream && RowHistory(world, rows[i], i);
      segmentStream := segmentStream[1..];
      HandleSegment(i);
      assert Attempted(world, rows, stream, store.rows, store.job.status, segmentStream);
      AttemptSettles(world, rows, stream, store.rows, store.job.status, segmentStream);
    }

    /** Consumes the segment stream until it is empty. */
    method Drain()
      requires (Working() || Over()) && Counted()
      modifies this, store
      ensures Over() && Counted() && segmentStream == []
    {
      while segmentStream != []
        invariant (Working() || Over()) && Counted()
        decreases Left()
      {
        if store.job.status.Terminal() {
          var i := segmentStream[0];
          segmentStream := segmentStream[1..];
          HandleSegment(i);
        } else {
          NextLive();
        }
      }
    }

    /** Handles the queue entry of a fresh job. */
    method Begin()
      requires store.View() == Tables(Job(Queued, None, 0, ""), map[])
      requires segmentStream == [] && text && notices == [] && syntheses == 0
      modifies this, store
      ensures (Working() || Over()) && Counted()
    {
      HandleJob();
      if world.InputOk() {
        PlannedFacts(store.rows, |world.pieces|);
        TodoFacts(store.rows, segmentStream);
        FreshProgress(world, store.rows, segmentStream);
      } else {
        assert !world.Completes();
      }
    }

    /** A fresh job, from its queue entry to the end. */
    method RunJob()
      requires store.View() == Tables(Job(Queued, None, 0, ""), map[])
      requires segmentStream == [] && text && notices == [] && syntheses == 0
      modifies this, store
      ensures store.job.status == (if world.Completes() then Completed else Failed)
      ensures forall i | i in store.rows :: store.rows[i].attempts <= MaxSegmentAttempts
      ensures syntheses <= 3 * |world.pieces|
      ensures segmentStream == [] && !text && notices == [store.job.status]
    {
      Begin();
      Drain();
      AttemptsBound(store.rows, |world.pieces|);
    }
  }

  /** The unfinished rows, in order. */
  ghost predicate IsTodo(rows: Rows, todo: seq<nat>) {
    Increasing(todo) && forall i: nat :: i in todo <==> i in rows && !rows[i].status.Done?
  }

  /** Rows 0..n-1, none attempted yet. */
  ghost predicate IsFresh(rows: Rows, n: nat) {
    && (forall i: nat :: i in rows <==> i < n)
    && (forall i | i in rows :: rows[i] == Segment(Pending, 0, ""))
  }

  lemma TodoFacts(rows: Rows, stream: seq<nat>)
    requires stream == [] + JobProtocol.Todo(rows)
    ensures IsTodo(rows, stream)
  {
    assert Lists(stream, UnfinishedRows(rows));
  }

  lemma PlannedFacts(rows: Rows, n: nat)
    requires rows == Planned(map[], n)
    ensures IsFresh(rows, n)
  {
  }

  lemma FreshProgress(w: World, rows: Rows, stream: seq<nat>)
    requires w.InputOk() && IsFresh(rows, |w.pieces|) && IsTodo(rows, stream)
    ensures InProgress(w, rows, stream)
  {
    assert 0 in rows && 0 in stream;
  }

  /** A walk over all rows in order has seen them all and listed their keys. */
  lemma CollectedAll(rows: Rows, order: seq<nat>, keys: seq<string>)
    requires Increasing(order) && |keys| == |order| && forall i :: i in order <==> i in rows
    requires forall j | 0 <= j < |order| :: order[j] in rows && keys[j] == rows[order[j]].key
    requires forall j | 0 <= j < |order| :: rows[order[j]].status.Done? && rows[order[j]].key != ""
    ensures JobProtocol.Mergeable(rows) && keys == JobProtocol.Keys(rows)
  {
    IncreasingUnique(order, Listing(rows.Keys));
    forall i | i in rows ensures rows[i].status.Done? && rows[i].key != "" {
      assert i in order;
    }
  }

  lemma PlannedNext(rows: Rows, job: Job, k: nat)
    ensures CreateSegment(Tables(job, Planned(rows, k)), k) == Tables(job, Planned(rows, k + 1))
  {
  }

  predicate Listed(rows: Rows, order: seq<nat>) {
    forall k | 0 <= k < |order| :: order[k] in rows
  }

  lemma UnfinishedStep(rows: Rows, order: seq<nat>, k: nat)
    requires Listed(rows, order) && k < |order|
    ensures Unfinished(rows, order[..k + 1])
         == Unfinished(rows, order[..k]) + (if rows[order[k]].status.Done? then [] else [order[k]])
  {
    assert order[..k + 1][..k] == order[..k];
  }

  /** The listed rows that are not done, in the order listed. */
  function Unfinished(rows: Rows, order: seq<nat>): (todo: seq<nat>)
    requires Listed(rows, order)
  {
    if order == [] then []
    else
      var last := order[|order| - 1];
      Unfinished(rows, order[..|order| - 1]) + (if rows[last].status.Done? then [] else [last])
  }

  lemma {:induction false} UnfinishedElements(rows: Rows, order: seq<nat>)
    requires Increasing(order) && Listed(rows, order)
    ensures Increasing(Unfinished(rows, order))
    ensures forall i :: i in Unfinished(rows, order) <==> i in order && !rows[i].status.Done?
  {
    if order != [] {
      var rest, last := order[..|order| - 1], order[|order| - 1];
      UnfinishedElements(rows, rest);
      assert order == rest + [last];
      var todo := Unfinished(rows, rest);
      forall k | 0 <= k < |todo| ensures todo[k] < last {
        assert todo[k] in todo;
        var j :| 0 <= j < |rest| && rest[j] == todo[k];
        assert order[j] < order[|order| - 1];
      }
    }
  }

  lemma ListedInOrder(rows: Rows)
    ensures Listed(rows, Ordered(rows.Keys))
    ensures Unfinished(rows, Ordered(rows.Keys)) == JobProtocol.Todo(rows)
  {
    var order := Ordered(rows.Keys);
    forall k | 0 <= k < |order| ensures order[k] in rows {
      assert order[k] in order;
    }
    UnfinishedElements(rows, order);
    IncreasingUnique(Unfinished(rows, order), JobProtocol.Todo(rows));
  }

  /** The rows after inserting 0..n-1, each only if missing. */
  function Planned(rows: Rows, n: nat): (planned: Rows)
    ensures forall i :: i in planned <==> i in rows || 0 <= i < n
    ensures forall i | i in planned :: planned[i] == if i in rows then rows[i] else Segment(Pending, 0, "")
  {
    if n == 0 then rows
    else
      var before := Planned(rows, n - 1);
      if n - 1 in before then before else before[n - 1 := Segment(Pending, 0, "")]
  }
}
