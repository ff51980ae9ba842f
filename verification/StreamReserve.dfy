/** The slots kept for streams: how many sync and batch can hold between two probes. */
module StreamReserve {
  import opened WorkerPool
  import opened DispatchProtocol
  import opened DispatchRuns

  ghost function BusySum(ws: seq<Snapshot>, n: nat): int
    requires n <= |ws|
  {
    if n == 0 then 0 else BusySum(ws, n - 1) + if ws[n - 1].Eligible() then ws[n - 1].slotsBusy else 0
  }

  ghost function HeldSum(ws: seq<Snapshot>, rs: seq<Reservation>, n: nat): nat
    requires n <= |ws|
  {
    if n == 0 then 0 else HeldSum(ws, rs, n - 1) + if ws[n - 1].Eligible() then Count(rs, On(n - 1)) else 0
  }

  /** How many held slots the probes of usable workers missed. */
  ghost function Missed(s: State, n: nat): nat
    requires n <= |s.workers|
  {
    if n == 0 then 0
    else Missed(s, n - 1) + if s.workers[n - 1].Eligible() && Drift(s, n - 1) < 0 then -Drift(s, n - 1) else 0
  }

  /** Conservation: every usable slot is busy or free. */
  lemma {:induction false} BusyAndFree(ws: seq<Snapshot>, n: nat)
    requires n <= |ws| && AllSane(ws)
    ensures BusySum(ws, n) + FreeSlots(ws, n) == Total(ws, n)
  {
    if n > 0 {
      BusyAndFree(ws, n - 1);
    }
  }

  lemma {:induction false} HeldIsBusy(s0: State, s: State, n: nat)
    requires n <= |s.workers| == |s0.workers|
    requires forall w | 0 <= w < |s.workers| ::
               Drift(s0, w) <= Drift(s, w) && s.workers[w].Eligible() == s0.workers[w].Eligible()
    ensures HeldSum(s.workers, s.reservations, n) <= BusySum(s.workers, n) + Missed(s0, n)
  {
    if n > 0 {
      HeldIsBusy(s0, s, n - 1);
      assert Drift(s0, n - 1) <= Drift(s, n - 1);
    }
  }

  lemma {:induction false} HeldSumAppend(ws: seq<Snapshot>, rs: seq<Reservation>, r: Reservation, n: nat)
    requires n <= |ws|
    ensures HeldSum(ws, rs + [r], n) == HeldSum(ws, rs, n)
                                        + if r.worker < n && ws[r.worker].Eligible() && r.progress == Held then 1 else 0
  {
    if n > 0 {
      HeldSumAppend(ws, rs, r, n - 1);
      CountAppend(rs, r, On(n - 1));
    }
  }

  /** Counting by reservation and counting by worker agree. */
  lemma {:induction false} LowIsHeld(ws: seq<Snapshot>, rs: seq<Reservation>)
    ensures Count(rs, Low(Up(ws))) <= HeldSum(ws, rs, |ws|)
  {
    if rs != [] {
      var n := |rs| - 1;
      LowIsHeld(ws, rs[..n]);
      assert rs == rs[..n] + [rs[n]];
      HeldSumAppend(ws, rs[..n], rs[n], |ws|);
      CountAppend(rs[..n], rs[n], Low(Up(ws)));
    }
  }

  lemma {:induction false} AdjustSums(ws: seq<Snapshot>, w: nat, n: nat)
    requires n <= |ws| && w < |ws| && ws[w].Selectable() && Sane(ws[w])
    ensures Total(Adjust(ws, w, 1), n) == Total(ws, n)
    ensures FreeSlots(Adjust(ws, w, 1), n) == FreeSlots(ws, n) - if w < n then 1 else 0
  {
    if n > 0 {
      AdjustSums(ws, w, n - 1);
    }
  }

  /** The usable workers and their slots change only with a probe. */
  ghost predicate SameFleet(ws: seq<Snapshot>, ws': seq<Snapshot>) {
    && |ws'| == |ws|
    && forall w | 0 <= w < |ws| :: ws'[w].Eligible() == ws[w].Eligible() && ws'[w].slotsTotal == ws[w].slotsTotal
  }

  lemma {:induction false} FleetStays(run: seq<State>, events: seq<Event>, k: nat)
    requires Interval(run, events) && k < |run|
    ensures SameFleet(run[0].workers, run[k].workers)
  {
    if k > 0 {
      FleetStays(run, events, k - 1);
      assert SameFleet(run[k - 1].workers, run[k].workers);
    }
  }

  lemma {:induction false} SameTotal(ws: seq<Snapshot>, ws': seq<Snapshot>, n: nat)
    requires SameFleet(ws, ws') && n <= |ws|
    ensures Total(ws', n) == Total(ws, n) && Up(ws') == Up(ws)
  {
    if n > 0 {
      SameTotal(ws, ws', n - 1);
    }
  }

  function LowHeld(s: State): nat { Count(s.reservations, Low(Up(s.workers))) }

  ghost function Bound(s: State): int {
    var total := Total(s.workers, |s.workers|);
    total - Reserved(total) + Missed(s, |s.workers|)
  }

  // From a state in which nobody is reading.

  /** Nobody is inside the lock, and the readings make sense. */
  predicate Quiet(s: State) { AllSane(s.workers) && s.LockFree() }

  lemma LowFits(run: seq<State>, events: seq<Event>, k: nat)
    requires Interval(run, events) && k < |run| && Quiet(run[0])
    ensures var ws := run[k].workers;
            LowHeld(run[k]) <= Total(ws, |ws|) - FreeSlots(ws, |ws|) + Missed(run[0], |run[0].workers|)
  {
    var s := run[k];
    RunSane(run, events, k);
    FleetStays(run, events, k);
    forall w: nat | w < |s.workers|
      ensures Drift(run[0], w) <= Drift(s, w) && s.workers[w].Eligible() == run[0].workers[w].Eligible()
    {
      LockFreeOverfillsNone(run[0], w);
      DriftNeverFalls(run, events, k, w);
    }
    LowIsHeld(s.workers, s.reservations);
    HeldIsBusy(run[0], s, |s.workers|);
    BusyAndFree(s.workers, |s.workers|);
  }

  lemma GrantWithin(run: seq<State>, events: seq<Event>, k: nat)
    requires Interval(run, events) && k < |events| && Quiet(run[0])
    requires events[k].Take? && run[k].callers[events[k].c].priority != Stream
    ensures LowHeld(run[k + 1]) <= Bound(run[0])
  {
    var s, at := run[k], run[k].callers[events[k].c];
    OrderlyFrom(run, events, 0, k);
    assert PlaceOk(s.workers, at);
    TakeOrderly(s, events[k]);
    AdjustSums(s.workers, at.best, |s.workers|);
    LowFits(run, events, k + 1);
    FleetStays(run, events, k);
    SameTotal(run[0].workers, s.workers, |s.workers|);
  }

  lemma LowFalls(s: State, e: Event)
    requires Enabled(s, e) && !e.Probe? && !(e.Take? && s.callers[e.c].priority != Stream)
    ensures Count(Apply(s, e).reservations, Low(Up(s.workers))) <= LowHeld(s)
  {
    var low := Low(Up(s.workers));
    match e
    case Take(c) =>
      if s.callers[c].best >= 0 {
        CountAppend(s.reservations, Reservation(s.callers[c].priority, s.callers[c].best, Held), low);
      }
    case NoteFreed(r) => CountUpdate(s.reservations, r, s.reservations[r].(progress := Freed), low);
    case Return(r) => CountUpdate(s.reservations, r, s.reservations[r].(progress := Released), low);
    case _ =>
  }

  lemma {:induction false} KeptWithin(run: seq<State>, events: seq<Event>, k: nat)
    requires Interval(run, events) && k < |run| && Quiet(run[0])
    ensures LowHeld(run[k]) <= Bound(run[0]) || LowHeld(run[k]) <= LowHeld(run[0])
  {
    if k > 0 {
      var s, e := run[k - 1], events[k - 1];
      KeptWithin(run, events, k - 1);
      if e.Take? && s.callers[e.c].priority != Stream {
        GrantWithin(run, events, k - 1);
      } else {
        LowFalls(s, e);
        UpStays(run, events, k - 1);
      }
    }
  }

  lemma UpStays(run: seq<State>, events: seq<Event>, k: nat)
    requires Interval(run, events) && k < |events|
    ensures Up(run[k].workers) == Up(run[0].workers) == Up(run[k + 1].workers)
  {
    FleetStays(run, events, k);
    FleetStays(run, events, k + 1);
    SameTotal(run[0].workers, run[k].workers, 0);
    SameTotal(run[0].workers, run[k + 1].workers, 0);
  }

  // Until then, one caller may act on reads that a probe has overtaken.

  lemma LowGrows(s: State, e: Event)
    requires Enabled(s, e) && e.Take?
    ensures Count(Apply(s, e).reservations, Low(Up(s.workers))) <= LowHeld(s) + 1
  {
    var at := s.callers[e.c];
    if at.best >= 0 {
      CountAppend(s.reservations, Reservation(at.priority, at.best, Held), Low(Up(s.workers)));
    }
  }

  /** One slot taken of a full worker raises what the probes missed by at most one. */
  lemma {:induction false} MissedOneMore(s0: State, s: State, w: int, n: nat)
    requires n <= |s.workers| == |s0.workers|
    requires forall v | 0 <= v < |s.workers| ::
               && s.workers[v].Eligible() == s0.workers[v].Eligible()
               && Drift(s0, v) <= Drift(s, v) + if v == w then 1 else 0
    ensures Missed(s, n) <= Missed(s0, n) + if 0 <= w < n then 1 else 0
  {
    if n > 0 {
      MissedOneMore(s0, s, w, n - 1);
      assert Drift(s0, n - 1) <= Drift(s, n - 1) + if n - 1 == w then 1 else 0;
    }
  }

  /** While the lock has been held since the probe, nobody has taken a slot. */
  ghost predicate Waiting(s0: State, s: State) {
    && SameFleet(s0.workers, s.workers) && LowHeld(s) <= LowHeld(s0)
    && forall w | 0 <= w < |s0.workers| :: Drift(s0, w) <= Drift(s, w)
  }

  lemma WaitsOn(s0: State, s: State, e: Event)
    requires Basic(s) && Waiting(s0, s) && Enabled(s, e) && !e.Probe? && !e.Take?
    ensures Waiting(s0, Apply(s, e))
  {
    var s' := Apply(s, e);
    assert SameFleet(s.workers, s'.workers);
    SameTotal(s.workers, s'.workers, 0);
    LowFalls(s, e);
    forall w: nat | w < |s0.workers|
      ensures Drift(s0, w) <= Drift(s', w)
    {
      StepLedger(s, e, w);
    }
  }

  lemma TakesOne(s0: State, s: State, e: Event)
    requires Basic(s) && Waiting(s0, s) && Enabled(s, e) && e.Take?
    ensures var s' := Apply(s, e);
            && Quiet(s') && LowHeld(s') <= LowHeld(s0) + 1 && Bound(s') <= Bound(s0) + 1
  {
    var s', best := Apply(s, e), s.callers[e.c].best;
    TakeBasic(s, e);
    assert SameFleet(s.workers, s'.workers) && SameFleet(s0.workers, s'.workers);
    SameTotal(s.workers, s'.workers, 0);
    SameTotal(s0.workers, s'.workers, |s0.workers|);
    LowGrows(s, e);
    forall v: nat | v < |s0.workers|
      ensures Drift(s0, v) <= Drift(s', v) + if v == best then 1 else 0
    {
      StepLedger(s, e, v);
    }
    MissedOneMore(s0, s', best, |s0.workers|);
  }

  lemma StillWaitingBound(s0: State, s: State)
    requires Basic(s) && Waiting(s0, s) && s.LockFree()
    ensures Quiet(s) && LowHeld(s) <= LowHeld(s0) && Bound(s) <= Bound(s0)
  {
    SameTotal(s0.workers, s.workers, |s0.workers|);
    MissedOneMore(s0, s, -1, |s0.workers|);
  }

  /** The first moment `j` since the probe at which nobody is inside the lock, if it has come: by then at
      most one slot was taken, by the caller that the probe overtook. */
  lemma {:induction false} UntilQuiet(run: seq<State>, events: seq<Event>, k: nat) returns (j: nat)
    requires Interval(run, events) && k < |run| && Basic(run[0])
    ensures j <= k && forall i | 0 <= i < j :: !run[i].LockFree()
    ensures if run[j].LockFree()
            then Quiet(run[j]) && LowHeld(run[j]) <= LowHeld(run[0]) + 1 && Bound(run[j]) <= Bound(run[0]) + 1
            else j == k && Waiting(run[0], run[k])
  {
    RunBasic(run, events, k);
    if k == 0 {
      j := 0;
    } else {
      j := UntilQuiet(run, events, k - 1);
      if !run[j].LockFree() {
        RunBasic(run, events, k - 1);
        j := k;
        if events[k - 1].Take? {
          TakesOne(run[0], run[k - 1], events[k - 1]);
        } else {
          WaitsOn(run[0], run[k - 1], events[k - 1]);
          if run[k].LockFree() {
            StillWaitingBound(run[0], run[k]);
          }
        }
      }
    }
  }

  lemma FromThere(run: seq<State>, events: seq<Event>, j: nat)
    requires Interval(run, events) && j < |run|
    ensures Interval(run[j..], events[j..])
  {
    var rest, more := run[j..], events[j..];
    forall i | 0 <= i < |more|
      ensures Enabled(rest[i], more[i]) && rest[i + 1] == Apply(rest[i], more[i]) && !more[i].Probe?
    {
      assert rest[i] == run[j + i] && rest[i + 1] == run[j + i + 1] && more[i] == events[j + i];
    }
  }

  lemma KeptFrom(run: seq<State>, events: seq<Event>, j: nat, k: nat)
    requires Interval(run, events) && j <= k < |run| && Quiet(run[j])
    ensures LowHeld(run[k]) <= Bound(run[j]) || LowHeld(run[k]) <= LowHeld(run[j])
  {
    FromThere(run, events, j);
    assert run[j..][k - j] == run[k];
    KeptWithin(run[j..], events[j..], k - j);
  }

  // The promises.

  /** Once nobody has been inside the lock since the last probe, no sync or batch caller is granted a
      slot past the fleet less the stream reservation, even when the probe left the fleet above it;
      slots the probes missed are all it can be off by. */
  lemma LowGrantWithinBound(run: seq<State>, events: seq<Event>, j: nat, k: nat)
    requires Interval(run, events) && j <= k < |events| && AllSane(run[0].workers) && run[j].LockFree()
    requires events[k].Take? && run[k].callers[events[k].c].priority != Stream
    ensures LowHeld(run[k + 1]) <= Bound(run[j])
  {
    RunSane(run, events, j);
    FromThere(run, events, j);
    var rest, more := run[j..], events[j..];
    assert rest[k - j] == run[k] && rest[k + 1 - j] == run[k + 1] && more[k - j] == events[k];
    GrantWithin(rest, more, k - j);
  }

  /** In every probe interval, whatever the probe overtook: sync and batch hold no more than the bound
      and one, or than they held at the probe and one; the one is the slot of a caller that was inside
      the lock at the probe. */
  lemma StreamReserveKept(run: seq<State>, events: seq<Event>, k: nat)
    requires Interval(run, events) && k < |run| && Basic(run[0])
    ensures LowHeld(run[k]) <= Bound(run[0]) + 1 || LowHeld(run[k]) <= LowHeld(run[0]) + 1
    ensures run[0].LockFree() ==> LowHeld(run[k]) <= Bound(run[0]) || LowHeld(run[k]) <= LowHeld(run[0])
  {
    var j := UntilQuiet(run, events, k);
    if run[j].LockFree() {
      KeptFrom(run, events, j, k);
    }
  }

  /** A sync caller that has picked a worker since read as having no slots. */
  function Overtaken(): State {
    State([Idle.(slotsTotal := 0)], map[], map[Sync := 1], [Picking(Sync, 1, 0, 1, 1.0)], [])
  }

  lemma OvertakenBound()
    ensures Basic(Overtaken()) && LowHeld(Overtaken()) == 0 && Bound(Overtaken()) == 0
  {
    var s := Overtaken();
    assert Total(s.workers, 1) == 0 && Missed(s, 1) == 0;
  }

  lemma OvertakenTake()
    ensures Enabled(Overtaken(), Take(0)) && LowHeld(Apply(Overtaken(), Take(0))) == 1
  {
    var s', r := Apply(Overtaken(), Take(0)), Reservation(Sync, 0, Held);
    assert s'.reservations == [r] && [r][..0] == [];
    assert s'.workers[0].Eligible();
    assert 0 in Up(s'.workers);
    assert Low(Up(s'.workers))(r);
  }

  /** The one is needed: a sync caller has looked at the only worker when a probe reads it as having no
      slots, and takes its slot all the same. */
  lemma OvertakenGrant() returns (run: seq<State>, events: seq<Event>, s: State)
    ensures Reaches(run, events, s) && Basic(s)
    ensures Enabled(s, Take(0)) && LowHeld(s) == 0 && Bound(s) == 0 && LowHeld(Apply(s, Take(0))) == 1
  {
    var gone := Idle.(slotsTotal := 0);
    run, events := SlotPicked(Sync);
    run, events := Extend(run, events, Alone(Sync, Picking(Sync, 1, 0, 1, 1.0)), Probe(0, gone));
    assert [Idle][0 := gone] == [gone];
    s := Overtaken();
    OvertakenBound();
    OvertakenTake();
  }
}
