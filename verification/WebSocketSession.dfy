/** A WebSocket session: one goroutine reads the socket and classifies frames, another runs the
    utterances; requests pass over an unbuffered channel and cancels over a one-slot channel. */
module WebSocketSession {
  import opened Basics

  /** A text frame that is no control message is a request, `valid` when its body decodes. Other
      frames are binary ones and control messages that are not cancels. */
  datatype Frame = Request(valid: bool) | Cancel | Other

  /** The runner: waiting for a request, emptying the cancel channel, streaming, or joining the
      watcher of cancels. `aborted` is the cancel that stopped the stream. */
  datatype Runner =
    | Waiting
    | Draining(request: nat)
    | Streaming(request: nat, watching: bool, aborted: Option<nat>)
    | Joining(request: nat, watching: bool, aborted: Option<nat>)

  datatype Utterance = Utterance(request: nat, aborted: Option<nat>)

  /** Frames are named by their position on the socket; the channels themselves carry no position. */
  datatype State = State(
    read: nat,
    offering: Option<nat>,
    closed: bool,
    pending: Option<nat>,
    runner: Runner,
    log: seq<Utterance>)

  const Opened: State := State(0, None, false, None, Waiting, [])

  datatype Event = Read | Close | HandOff | Drain | DrainEmpty | Watch | StreamEnds | WatchStale | WatchDone | Finish

  predicate Enabled(frames: seq<Frame>, s: State, e: Event) {
    match e
    case Read => !s.closed && s.offering.None? && s.read < |frames|
    case Close => !s.closed
    case HandOff => !s.closed && s.offering.Some? && s.runner.Waiting?
    case Drain => s.runner.Draining? && s.pending.Some?
    case DrainEmpty => s.runner.Draining? && s.pending.None? && s.runner.request < |frames|
    case Watch => s.runner.Streaming? && s.runner.watching && s.pending.Some?
    case StreamEnds => s.runner.Streaming?
    case WatchStale => s.runner.Joining? && s.runner.watching && s.pending.Some?
    case WatchDone => s.runner.Joining? && s.runner.watching
    case Finish => s.runner.Joining? && !s.runner.watching
  }

  function Apply(frames: seq<Frame>, s: State, e: Event): State
    requires Enabled(frames, s, e)
  {
    match e
    case Read =>
      var s' := s.(read := s.read + 1);
      (match frames[s.read]
       case Request(_) => s'.(offering := Some(s.read))
       case Cancel => if s.pending.None? then s'.(pending := Some(s.read)) else s'
       case Other => s')
    case Close => s.(closed := true)
    case HandOff => s.(offering := None, runner := Draining(s.offering.value))
    case Drain => s.(pending := None)
    case DrainEmpty =>
      if frames[s.runner.request] == Request(true) then s.(runner := Streaming(s.runner.request, true, None))
      else s.(runner := Waiting, log := s.log + [Utterance(s.runner.request, None)])
    case Watch => s.(pending := None, runner := Streaming(s.runner.request, false, s.pending))
    case StreamEnds => s.(runner := Joining(s.runner.request, s.runner.watching, s.runner.aborted))
    case WatchStale => s.(pending := None, runner := Joining(s.runner.request, false, s.runner.aborted))
    case WatchDone => s.(runner := Joining(s.runner.request, false, s.runner.aborted))
    case Finish => s.(runner := Waiting, log := s.log + [Utterance(s.runner.request, s.runner.aborted)])
  }

  predicate IsRun(frames: seq<Frame>, run: seq<State>, events: seq<Event>) {
    && |run| == |events| + 1 && run[0] == Opened
    && forall k | 0 <= k < |events| ::
         Enabled(frames, run[k], events[k]) && run[k + 1] == Apply(frames, run[k], events[k])
  }

  /** Positions of the requests among the first `n` frames. */
  function Requests(frames: seq<Frame>, n: nat): (r: seq<nat>)
    requires n <= |frames|
    ensures forall i | i in r :: i < n && frames[i].Request?
    ensures forall i: nat | i < n && frames[i].Request? :: i in r
    ensures forall a, b | 0 <= a < b < |r| :: r[a] < r[b]
  {
    if n == 0 then []
    else
      var r := Requests(frames, n - 1);
      assert forall a | 0 <= a < |r| :: r[a] in r;
      if frames[n - 1].Request? then r + [n - 1] else r
  }

  function Named(log: seq<Utterance>): (r: seq<nat>)
    ensures |r| == |log| && forall i | 0 <= i < |log| :: r[i] == log[i].request
  {
    seq(|log|, i requires 0 <= i < |log| => log[i].request)
  }

  function Current(r: Runner): seq<nat> { if r.Waiting? then [] else [r.request] }

  function Listed(o: Option<nat>): seq<nat> { if o.Some? then [o.value] else [] }

  /** Frame `c` is a cancel after request `r` and before the next request. */
  ghost predicate Meant(frames: seq<Frame>, r: nat, c: nat) {
    && r < c < |frames| && frames[c] == Cancel
    && forall m | r < m < c :: !frames[m].Request?
  }

  ghost predicate AbortOk(frames: seq<Frame>, r: nat, aborted: Option<nat>) {
    aborted.Some? ==> Meant(frames, r, aborted.value)
  }

  ghost predicate Inv(frames: seq<Frame>, s: State) {
    && s.read <= |frames|
    && (s.offering.Some? ==> s.read > 0 && s.offering.value == s.read - 1 && frames[s.read - 1].Request?)
    && (s.pending.Some? ==> s.pending.value < s.read && frames[s.pending.value] == Cancel)
    && Named(s.log) + Current(s.runner) + Listed(s.offering) == Requests(frames, s.read)
    && (s.runner.Streaming? || s.runner.Joining? ==>
          && AbortOk(frames, s.runner.request, s.runner.aborted)
          && (s.pending.Some? ==> s.runner.request < s.pending.value))
    && (forall u | u in s.log :: AbortOk(frames, u.request, u.aborted))
  }

  /** The reader cannot pass the next request while an utterance runs: a frame read since then is
      a request only if it is the one on offer. */
  lemma NothingPassed(frames: seq<Frame>, s: State, m: nat)
    requires Inv(frames, s) && !s.runner.Waiting? && s.runner.request < m < s.read && frames[m].Request?
    ensures s.offering == Some(m)
  {
    var all := Requests(frames, s.read);
    var at := |s.log|;
    assert all[at] == s.runner.request;
    assert m in all;
    var i :| 0 <= i < |all| && all[i] == m;
    assert i > at;
  }

  lemma WatchKeeps(frames: seq<Frame>, s: State)
    requires Inv(frames, s) && Enabled(frames, s, Watch)
    ensures Meant(frames, s.runner.request, s.pending.value)
    ensures Inv(frames, Apply(frames, s, Watch))
  {
    var r, c := s.runner.request, s.pending.value;
    forall m | r < m < c
      ensures !frames[m].Request?
    {
      if frames[m].Request? {
        NothingPassed(frames, s, m);
      }
    }
  }

  lemma ReadOrder(frames: seq<Frame>, s: State)
    requires Inv(frames, s) && Enabled(frames, s, Read)
    ensures var s' := Apply(frames, s, Read);
            Named(s.log) + Current(s.runner) + Listed(s'.offering) == Requests(frames, s.read + 1)
  {
    var done := Named(s.log) + Current(s.runner);
    assert done + Listed(None) == done;
    assert done + Listed(s.offering) == done;
  }

  lemma CurrentWasRead(frames: seq<Frame>, s: State)
    requires Inv(frames, s) && !s.runner.Waiting?
    ensures s.runner.request < s.read
  {
    var all := Requests(frames, s.read);
    assert all[|s.log|] == s.runner.request && all[|s.log|] in all;
  }

  lemma ReadKeeps(frames: seq<Frame>, s: State)
    requires Inv(frames, s) && Enabled(frames, s, Read)
    ensures Inv(frames, Apply(frames, s, Read))
  {
    ReadOrder(frames, s);
    if !s.runner.Waiting? {
      CurrentWasRead(frames, s);
    }
  }

  lemma SameOrder(log: seq<Utterance>, u: Utterance, offered: nat)
    ensures Named(log + [u]) + [] + [] == Named(log) + [u.request] + []
    ensures Named(log + [u]) + [] + [offered] == Named(log) + [u.request] + [offered]
    ensures Named(log) + [] + [offered] == Named(log) + [offered] + []
  {
  }

  lemma HandOffKeeps(frames: seq<Frame>, s: State)
    requires Inv(frames, s) && Enabled(frames, s, HandOff)
    ensures Inv(frames, Apply(frames, s, HandOff))
  {
    SameOrder(s.log, Utterance(0, None), s.offering.value);
  }

  /** The runner is done with its request. */
  lemma LogKeeps(frames: seq<Frame>, s: State, u: Utterance)
    requires Inv(frames, s) && !s.runner.Waiting? && u.request == s.runner.request
    requires AbortOk(frames, u.request, u.aborted)
    ensures Inv(frames, s.(runner := Waiting, log := s.log + [u]))
  {
    SameOrder(s.log, u, if s.offering.Some? then s.offering.value else 0);
    var s' := s.(runner := Waiting, log := s.log + [u]);
    assert Named(s'.log) + Current(s'.runner) + Listed(s'.offering) == Requests(frames, s.read);
    assert forall v | v in s'.log :: v in s.log || v == u;
  }

  lemma CloseKeeps(frames: seq<Frame>, s: State)
    requires Inv(frames, s)
    ensures Inv(frames, s.(closed := true))
    ensures Inv(frames, s.(pending := None))
  {
  }

  /** The runner goes on with the same request. */
  lemma RunnerKeeps(frames: seq<Frame>, s: State, r: Runner)
    requires Inv(frames, s) && !s.runner.Waiting? && !r.Waiting? && r.request == s.runner.request
    requires !r.Draining? ==> AbortOk(frames, r.request, r.aborted) && (s.pending.Some? ==> r.request < s.pending.value)
    ensures Inv(frames, s.(runner := r))
  {
  }

  lemma DrainEmptyKeeps(frames: seq<Frame>, s: State)
    requires Inv(frames, s) && Enabled(frames, s, DrainEmpty)
    ensures Inv(frames, Apply(frames, s, DrainEmpty))
  {
    if frames[s.runner.request] == Request(true) {
      RunnerKeeps(frames, s, Streaming(s.runner.request, true, None));
    } else {
      LogKeeps(frames, s, Utterance(s.runner.request, None));
    }
  }

  lemma WatchStaleKeeps(frames: seq<Frame>, s: State)
    requires Inv(frames, s) && Enabled(frames, s, WatchStale)
    ensures Inv(frames, Apply(frames, s, WatchStale))
  {
    CloseKeeps(frames, s);
    RunnerKeeps(frames, s.(pending := None), Joining(s.runner.request, false, s.runner.aborted));
  }

  lemma StepKeeps(frames: seq<Frame>, s: State, e: Event)
    requires Inv(frames, s) && Enabled(frames, s, e)
    ensures Inv(frames, Apply(frames, s, e))
  {
    match e
    case Read => ReadKeeps(frames, s);
    case Close => CloseKeeps(frames, s);
    case HandOff => HandOffKeeps(frames, s);
    case Drain => CloseKeeps(frames, s);
    case DrainEmpty => DrainEmptyKeeps(frames, s);
    case Watch => WatchKeeps(frames, s);
    case StreamEnds => RunnerKeeps(frames, s, Joining(s.runner.request, s.runner.watching, s.runner.aborted));
    case WatchStale => WatchStaleKeeps(frames, s);
    case WatchDone => RunnerKeeps(frames, s, Joining(s.runner.request, false, s.runner.aborted));
    case Finish => LogKeeps(frames, s, Utterance(s.runner.request, s.runner.aborted));
  }

  lemma {:induction false} RunKeeps(frames: seq<Frame>, run: seq<State>, events: seq<Event>, k: nat)
    requires IsRun(frames, run, events) && k < |run|
    ensures Inv(frames, run[k])
  {
    if k > 0 {
      RunKeeps(frames, run, events, k - 1);
      StepKeeps(frames, run[k - 1], events[k - 1]);
    }
  }

  /** Utterances run one at a time, in socket order, none skipped and none twice: those finished,
      the one running and the one on offer are the requests read so far. */
  lemma InSocketOrder(frames: seq<Frame>, run: seq<State>, events: seq<Event>, k: nat)
    requires IsRun(frames, run, events) && k < |run|
    ensures run[k].read <= |frames|
    ensures Named(run[k].log) + Current(run[k].runner) + Listed(run[k].offering) == Requests(frames, run[k].read)
  {
    RunKeeps(frames, run, events, k);
  }

  /** An utterance is aborted only by a cancel frame that lies after its own request and before the
      next request, in every schedule of the two goroutines. */
  lemma CancelAttribution(frames: seq<Frame>, run: seq<State>, events: seq<Event>, k: nat, i: nat)
    requires IsRun(frames, run, events) && k < |run| && i < |run[k].log| && run[k].log[i].aborted.Some?
    ensures Meant(frames, run[k].log[i].request, run[k].log[i].aborted.value)
  {
    RunKeeps(frames, run, events, k);
    assert run[k].log[i] in run[k].log;
  }

  /** One cancel frame aborts at most one utterance. */
  lemma OneCancelOneUtterance(frames: seq<Frame>, run: seq<State>, events: seq<Event>, k: nat, i: nat, j: nat)
    requires IsRun(frames, run, events) && k < |run| && i < j < |run[k].log|
    requires run[k].log[i].aborted.Some? && run[k].log[j].aborted.Some?
    ensures run[k].log[i].aborted.value < run[k].log[j].aborted.value
  {
    CancelAttribution(frames, run, events, k, i);
    CancelAttribution(frames, run, events, k, j);
    RunKeeps(frames, run, events, k);
    var all := Requests(frames, run[k].read);
    assert all[i] == run[k].log[i].request && all[j] == run[k].log[j].request;
    assert all[i] < all[j] && all[j] in all;
  }

  // The fate of a cancel frame.

  /** A cancel is read at step `k`, as frame `c`. */
  predicate CancelReadAt(frames: seq<Frame>, run: seq<State>, events: seq<Event>, k: nat, c: nat) {
    k < |events| < |run| && events[k] == Read && run[k].read == c < |frames| && frames[c] == Cancel
  }

  predicate Watched(s: State) { s.runner.Streaming? && s.runner.watching }

  /** The stream of request `r` runs and a cancel meant for it is pending or has stopped it. */
  ghost predicate Heard(frames: seq<Frame>, s: State, r: nat) {
    && s.runner.Streaming? && s.runner.request == r
    && (if s.runner.watching then s.pending.Some? && Meant(frames, r, s.pending.value)
        else s.runner.aborted.Some? && Meant(frames, r, s.runner.aborted.value))
  }

  lemma PendingIsMeant(frames: seq<Frame>, s: State)
    requires Inv(frames, s) && Watched(s) && s.pending.Some?
    ensures Meant(frames, s.runner.request, s.pending.value)
  {
    WatchKeeps(frames, s);
  }

  lemma HeardAtOnce(frames: seq<Frame>, s: State)
    requires Inv(frames, s) && Watched(s) && Enabled(frames, s, Read) && frames[s.read] == Cancel
    ensures Heard(frames, Apply(frames, s, Read), s.runner.request)
  {
    ReadKeeps(frames, s);
    PendingIsMeant(frames, Apply(frames, s, Read));
  }

  lemma StaysHeard(frames: seq<Frame>, s: State, e: Event, r: nat)
    requires Inv(frames, s) && Enabled(frames, s, e) && e != StreamEnds && Heard(frames, s, r)
    ensures Heard(frames, Apply(frames, s, e), r)
  {
  }

  /** A cancel that is read while the stream is watched is not lost: until the stream ends, a cancel
      meant for it is pending or has aborted it. */
  lemma {:induction false} WatchedCancelIsHeard(
    frames: seq<Frame>, run: seq<State>, events: seq<Event>, k: nat, c: nat, j: nat)
    requires IsRun(frames, run, events) && CancelReadAt(frames, run, events, k, c) && Watched(run[k])
    requires k < j < |run| && forall m | k < m < j :: events[m] != StreamEnds
    ensures Heard(frames, run[j], run[k].runner.request)
  {
    RunKeeps(frames, run, events, j - 1);
    if j == k + 1 {
      HeardAtOnce(frames, run[k]);
    } else {
      WatchedCancelIsHeard(frames, run, events, k, c, j - 1);
      StaysHeard(frames, run[j - 1], events[j - 1], run[k].runner.request);
    }
  }

  predicate AbortedBy(s: State, c: nat) {
    || ((s.runner.Streaming? || s.runner.Joining?) && s.runner.aborted == Some(c))
    || exists i | 0 <= i < |s.log| :: s.log[i].aborted == Some(c)
  }

  /** Frame `c` was read and has aborted nothing; if it is pending, the next to look is a drain. */
  predicate Spent(s: State, c: nat) {
    c < s.read && !AbortedBy(s, c) && (s.pending == Some(c) ==> !Watched(s))
  }

  lemma StaysSpent(frames: seq<Frame>, s: State, e: Event, c: nat)
    requires Enabled(frames, s, e) && Spent(s, c)
    ensures Spent(Apply(frames, s, e), c)
  {
    var s' := Apply(frames, s, e);
    forall i | 0 <= i < |s'.log|
      ensures s'.log[i].aborted != Some(c)
    {
      assert i < |s.log| ==> s'.log[i] == s.log[i] && s.log[i].aborted != Some(c);
    }
  }

  /** Only frames already read have aborted anything. */
  ghost predicate AbortsRead(s: State) {
    && ((s.runner.Streaming? || s.runner.Joining?) && s.runner.aborted.Some? ==> s.runner.aborted.value < s.read)
    && forall u | u in s.log && u.aborted.Some? :: u.aborted.value < s.read
  }

  lemma {:induction false} RunAbortsRead(frames: seq<Frame>, run: seq<State>, events: seq<Event>, k: nat)
    requires IsRun(frames, run, events) && k < |run|
    ensures AbortsRead(run[k])
  {
    if k > 0 {
      RunAbortsRead(frames, run, events, k - 1);
      RunKeeps(frames, run, events, k - 1);
      StepAbortsRead(frames, run[k - 1], events[k - 1]);
    }
  }

  lemma StepAbortsRead(frames: seq<Frame>, s: State, e: Event)
    requires Inv(frames, s) && AbortsRead(s) && Enabled(frames, s, e)
    ensures AbortsRead(Apply(frames, s, e))
  {
    var s' := Apply(frames, s, e);
    forall u | u in s'.log && u.aborted.Some?
      ensures u.aborted.value < s'.read
    {
      assert u in s.log || u == s'.log[|s.log|];
    }
  }

  /** A cancel that is read at any other moment is lost: while the runner waits, drains, joins the
      watcher, or has been aborted already, it aborts no utterance, ever. */
  lemma {:induction false} UnwatchedCancelIsLost(
    frames: seq<Frame>, run: seq<State>, events: seq<Event>, k: nat, c: nat, j: nat)
    requires IsRun(frames, run, events) && CancelReadAt(frames, run, events, k, c) && !Watched(run[k])
    requires k < j < |run|
    ensures Spent(run[j], c)
  {
    if j == k + 1 {
      RunAbortsRead(frames, run, events, k);
      forall i | 0 <= i < |run[k].log|
        ensures run[k].log[i].aborted != Some(c)
      {
        assert run[k].log[i] in run[k].log;
      }
    } else {
      UnwatchedCancelIsLost(frames, run, events, k, c, j - 1);
      StaysSpent(frames, run[j - 1], events[j - 1], c);
    }
  }

  lemma {:induction false} WasRead(frames: seq<Frame>, run: seq<State>, events: seq<Event>, c: nat, j: nat)
    returns (k: nat)
    requires IsRun(frames, run, events) && j < |run| && c < run[j].read
    ensures k < j && events[k] == Read && run[k].read == c
  {
    if c < run[j - 1].read {
      k := WasRead(frames, run, events, c, j - 1);
    } else {
      k := j - 1;
    }
  }

  lemma SameRequest(frames: seq<Frame>, a: nat, b: nat, c: nat)
    requires Meant(frames, a, c) && Meant(frames, b, c) && frames[a].Request? && frames[b].Request?
    ensures a == b
  {
  }

  /** An utterance is aborted by exactly the kind of cancel the two laws tell apart: one that was read
      while that utterance's own stream was being watched. */
  lemma AborterWasWatched(frames: seq<Frame>, run: seq<State>, events: seq<Event>, j: nat, i: nat, c: nat)
    returns (k: nat)
    requires IsRun(frames, run, events) && j < |run| && i < |run[j].log| && run[j].log[i].aborted == Some(c)
    ensures k < j && CancelReadAt(frames, run, events, k, c)
    ensures Watched(run[k]) && run[k].runner.request == run[j].log[i].request
  {
    CancelAttribution(frames, run, events, j, i);
    RunAbortsRead(frames, run, events, j);
    assert run[j].log[i] in run[j].log;
    k := WasRead(frames, run, events, c, j);
    if !Watched(run[k]) {
      UnwatchedCancelIsLost(frames, run, events, k, c, j);
    }
    LoggedRequest(frames, run, events, j, i);
    RunKeeps(frames, run, events, k);
    RunKeeps(frames, run, events, k + 1);
    CurrentIsMeant(frames, run[k], c);
    SameRequest(frames, run[k].runner.request, run[j].log[i].request, c);
  }

  lemma LoggedRequest(frames: seq<Frame>, run: seq<State>, events: seq<Event>, j: nat, i: nat)
    requires IsRun(frames, run, events) && j < |run| && i < |run[j].log|
    ensures run[j].log[i].request < |frames| && frames[run[j].log[i].request].Request?
  {
    RunKeeps(frames, run, events, j);
    var all := Requests(frames, run[j].read);
    assert all[i] == run[j].log[i].request && all[i] in all;
  }

  /** A cancel about to be read is meant for the current request. */
  lemma CurrentIsMeant(frames: seq<Frame>, s: State, c: nat)
    requires Inv(frames, s) && !s.runner.Waiting? && s.offering.None?
    requires s.read == c < |frames| && frames[c] == Cancel
    ensures Meant(frames, s.runner.request, c) && frames[s.runner.request].Request?
  {
    var all := Requests(frames, s.read);
    assert all[|s.log|] == s.runner.request && all[|s.log|] in all;
    forall m | s.runner.request < m < c
      ensures !frames[m].Request?
    {
      if frames[m].Request? {
        NothingPassed(frames, s, m);
      }
    }
  }

  /** Such a loss happens to a cancel that was meant: read between the hand-off of its request and the
      start of the watch, it is drained as a stale one, and the stream starts with nothing pending. */
  lemma CancelCanBeSwallowed() returns (frames: seq<Frame>, run: seq<State>, events: seq<Event>)
    ensures IsRun(frames, run, events) && frames == [Request(true), Cancel] && Meant(frames, 0, 1)
    ensures CancelReadAt(frames, run, events, 2, 1) && run[2].runner == Draining(0)
    ensures run[|events|] == State(2, None, false, None, Streaming(0, true, None), [])
  {
    frames := [Request(true), Cancel];
    events := [Read, HandOff, Read, Drain, DrainEmpty];
    run := [
      Opened,
      State(1, Some(0), false, None, Waiting, []),
      State(1, None, false, None, Draining(0), []),
      State(2, None, false, Some(1), Draining(0), []),
      State(2, None, false, None, Draining(0), []),
      State(2, None, false, None, Streaming(0, true, None), [])];
  }
}
