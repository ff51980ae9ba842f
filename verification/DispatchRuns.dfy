/** What holds over runs of the admission protocol: exact counters across probes, and between two
    probes safe reads, an exact ledger of the busy counts and the stream reservation. */
module DispatchRuns {
  import opened WorkerPool
  import opened DispatchProtocol

  // The dispatcher's counters, over every run.

  ghost predicate CountsExact(s: State) {
    && (forall k :: At(s.inFlight, k) == Count(s.reservations, Of(k)))
    && (forall k :: At(s.waiting, k) == Count(s.callers, Waits(k)))
  }

  function One(b: bool): int { if b then 1 else 0 }

  /** The caller moves and the waiting counts follow. */
  lemma MoveCounts(s: State, c: nat, at: Place, waiting: Counts)
    requires CountsExact(s) && c < |s.callers|
    requires forall k :: At(waiting, k) == At(s.waiting, k) - One(Waits(k)(s.callers[c])) + One(Waits(k)(at))
    ensures CountsExact(Moved(s, c, at).(waiting := waiting))
  {
    forall k: Class
      ensures At(waiting, k) == Count(s.callers[c := at], Waits(k))
    {
      CountUpdate(s.callers, c, at, Waits(k));
    }
  }

  lemma TakeCounts(s: State, c: nat, k: Class, w: nat)
    requires CountsExact(s) && c < |s.callers| && Locked(s.callers[c]) && s.callers[c].priority == k
    ensures CountsExact(Taken(s, c, k, w))
  {
    forall j: Class
      ensures At(Taken(s, c, k, w).inFlight, j) == Count(s.reservations + [Reservation(k, w, Held)], Of(j))
      ensures At(s.waiting, j) == Count(s.callers[c := Queued(k)], Waits(j))
    {
      CountAppend(s.reservations, Reservation(k, w, Held), Of(j));
      CountUpdate(s.callers, c, Queued(k), Waits(j));
    }
  }

  lemma ReleaseCounts(s: State, r: nat, p: Progress, inFlight: Counts)
    requires CountsExact(s) && r < |s.reservations| && p != Held && s.reservations[r].progress != Released
    requires inFlight == if p == Released then Decremented(s.inFlight, s.reservations[r].priority) else s.inFlight
    ensures var rs := s.reservations[r := s.reservations[r].(progress := p)];
            CountsExact(s.(inFlight := inFlight, reservations := rs))
  {
    forall k: Class
      ensures At(inFlight, k) == Count(s.reservations[r := s.reservations[r].(progress := p)], Of(k))
    {
      CountUpdate(s.reservations, r, s.reservations[r].(progress := p), Of(k));
    }
  }

  lemma QueueCounts(s: State, e: Event)
    requires CountsExact(s) && Enabled(s, e) && (e.Enter? || e.Leave? || e.Lock?)
    ensures CountsExact(Apply(s, e))
  {
    match e
    case Enter(c, k) => MoveCounts(s, c, Queued(k), Incremented(s.waiting, k));
    case Leave(c) =>
      CountUpdate(s.callers, c, Away, Waits(s.callers[c].priority));
      MoveCounts(s, c, Away, Decremented(s.waiting, s.callers[c].priority));
    case Lock(c) => MoveCounts(s, c, Counting(s.callers[c].priority, 0, 0, 0), s.waiting);
  }

  lemma StepCounts(s: State, e: Event)
    requires CountsExact(s) && Enabled(s, e)
    ensures CountsExact(Apply(s, e))
  {
    match e
    case Enter(_, _) => QueueCounts(s, e);
    case Leave(_) => QueueCounts(s, e);
    case Lock(_) => QueueCounts(s, e);
    case Read(c) => MoveCounts(s, c, Counted(s.callers[c], s.workers[s.callers[c].read]), s.waiting);
    case Decide(c) => MoveCounts(s, c, Apply(s, e).callers[c], s.waiting);
    case Look(c) => MoveCounts(s, c, Compared(s.callers[c], s.workers[s.callers[c].looked]), s.waiting);
    case Take(c) =>
      if s.callers[c].best < 0 {
        MoveCounts(s, c, Queued(s.callers[c].priority), s.waiting);
      } else {
        TakeCounts(s, c, s.callers[c].priority, s.callers[c].best);
      }
    case NoteFreed(r) => ReleaseCounts(s, r, Freed, s.inFlight);
    case Return(r) => ReleaseCounts(s, r, Released, Decremented(s.inFlight, s.reservations[r].priority));
    case Probe(_, _) =>
  }

  lemma {:induction false} NoneCounted<T>(xs: seq<T>, p: T -> bool)
    requires forall x | x in xs :: !p(x)
    ensures Count(xs, p) == 0
  {
    if xs != [] {
      NoneCounted(xs[..|xs| - 1], p);
    }
  }

  lemma BegunCounts(s: State)
    requires Begun(s)
    ensures CountsExact(s)
  {
    forall k: Class
      ensures Count(s.callers, Waits(k)) == 0
    {
      NoneCounted(s.callers, Waits(k));
    }
  }

  /** From the start of the gateway on, through any probes, the counters are exact: reservations not
      yet returned, and callers queued, of each class. */
  lemma {:induction false} CountersExact(run: seq<State>, events: seq<Event>, k: nat)
    requires IsRun(run, events) && k < |run| && Begun(run[0])
    ensures forall c :: At(run[k].inFlight, c) == Count(run[k].reservations, Of(c))
    ensures forall c :: At(run[k].waiting, c) == Count(run[k].callers, Waits(c))
  {
    if k == 0 {
      BegunCounts(run[0]);
    } else {
      CountersExact(run, events, k - 1);
      assert CountsExact(run[k - 1]);
      StepCounts(run[k - 1], events[k - 1]);
    }
  }

  /** So neither counter is ever cut off at zero. */
  lemma CountersNeverCutOff(run: seq<State>, events: seq<Event>, k: nat)
    requires IsRun(run, events) && k < |events| && Begun(run[0])
    ensures var s, s' := run[k], run[k + 1];
            match events[k]
            case Return(r) =>
              var j := s.reservations[r].priority;
              At(s'.inFlight, j) == At(s.inFlight, j) - 1
            case Leave(c) =>
              var j := s.callers[c].priority;
              At(s'.waiting, j) == At(s.waiting, j) - 1
            case _ => true
  {
    CountersExact(run, events, k);
    var s := run[k];
    match events[k]
    case Return(r) => CountUpdate(s.reservations, r, s.reservations[r], Of(s.reservations[r].priority));
    case Leave(c) => CountUpdate(s.callers, c, s.callers[c], Waits(s.callers[c].priority));
    case _ =>
  }

  // Readers, between probes.

  /** A reading that makes sense. */
  predicate Sane(w: Snapshot) { 0 <= w.slotsBusy <= w.slotsTotal }

  predicate AllSane(ws: seq<Snapshot>) {
    forall w | 0 <= w < |ws| :: Sane(ws[w])
  }

  /** A reader under the lock has not seen more free slots than there are. */
  ghost predicate PlaceOk(ws: seq<Snapshot>, at: Place) {
    match at
    case Counting(_, read, total, free) =>
      read <= |ws| && total == Total(ws, read) && free <= FreeSlots(ws, read)
    case Picking(k, looked, best, bestFree, _) =>
      && looked <= |ws|
      && (k == Stream || FreeSlots(ws, |ws|) > Reserved(Total(ws, |ws|)))
      && (if best < 0 then bestFree == -1 && exists i | looked <= i < |ws| :: ws[i].Selectable()
          else best < |ws| && ws[best].Selectable())
    case _ => true
  }

  ghost predicate OneLock(callers: seq<Place>) {
    forall c, d | 0 <= c < d < |callers| :: !(Locked(callers[c]) && Locked(callers[d]))
  }

  /** At most one caller reads the fleet, and what it has read still holds. This is so whenever
      nobody is inside the lock. */
  ghost predicate Orderly(s: State) {
    && AllSane(s.workers) && OneLock(s.callers)
    && forall c | 0 <= c < |s.callers| :: PlaceOk(s.workers, s.callers[c])
  }

  /** Freeing a slot elsewhere only raises what a reader may have missed. */
  ghost predicate Freer(ws: seq<Snapshot>, ws': seq<Snapshot>) {
    && |ws'| == |ws|
    && forall w | 0 <= w < |ws| ::
         && ws'[w].Eligible() == ws[w].Eligible() && ws'[w].slotsTotal == ws[w].slotsTotal
         && ws[w].Free() <= ws'[w].Free()
  }

  lemma {:induction false} FreerSums(ws: seq<Snapshot>, ws': seq<Snapshot>, n: nat)
    requires Freer(ws, ws') && n <= |ws|
    ensures Total(ws', n) == Total(ws, n) && FreeSlots(ws, n) <= FreeSlots(ws', n)
  {
    if n > 0 {
      FreerSums(ws, ws', n - 1);
    }
  }

  lemma FreerPlace(ws: seq<Snapshot>, ws': seq<Snapshot>, at: Place)
    requires Freer(ws, ws') && PlaceOk(ws, at)
    ensures PlaceOk(ws', at)
  {
    FreerSums(ws, ws', |ws|);
    if at.Counting? {
      FreerSums(ws, ws', at.read);
    } else if at.Picking? && at.best < 0 {
      var i :| at.looked <= i < |ws| && ws[i].Selectable();
      assert ws'[i].Selectable();
    }
  }

  lemma FreeOrderly(s: State, e: Event)
    requires Orderly(s) && e.NoteFreed? && Enabled(s, e)
    ensures Orderly(Apply(s, e))
  {
    var s' := Apply(s, e);
    assert Freer(s.workers, s'.workers) && AllSane(s'.workers);
    forall c | 0 <= c < |s.callers|
      ensures PlaceOk(s'.workers, s'.callers[c])
    {
      FreerPlace(s.workers, s'.workers, s.callers[c]);
    }
  }

  /** While one caller holds the lock, no other is reading. */
  lemma OthersIdle(s: State, c: nat, d: nat)
    requires OneLock(s.callers) && c < |s.callers| && d < |s.callers| && c != d && Locked(s.callers[c])
    ensures !Locked(s.callers[d])
  {
  }

  /** A taking step lowers free slots when nobody else is reading, and it finds its worker free. */
  lemma TakeOrderly(s: State, e: Event)
    requires Orderly(s) && e.Take? && Enabled(s, e)
    ensures var best := s.callers[e.c].best;
            0 <= best < |s.workers| && s.workers[best].Selectable()
    ensures Orderly(Apply(s, e))
  {
    var at, s' := s.callers[e.c], Apply(s, e);
    assert PlaceOk(s.workers, at);
    assert s' == Taken(s, e.c, at.priority, at.best);
    forall d: nat | d < |s.callers|
      ensures !Locked(s'.callers[d])
    {
      if d != e.c {
        OthersIdle(s, e.c, d);
      }
    }
  }

  lemma MoveOrderly(s: State, c: nat, at: Place)
    requires Orderly(s) && c < |s.callers| && PlaceOk(s.workers, at)
    requires Locked(at) ==> Locked(s.callers[c]) || s.LockFree()
    ensures Orderly(Moved(s, c, at))
  {
  }

  lemma DecideOrderly(s: State, e: Event)
    requires Orderly(s) && e.Decide? && Enabled(s, e)
    ensures Orderly(Apply(s, e))
  {
    var at := s.callers[e.c];
    assert PlaceOk(s.workers, at);
    if Admits(at.priority, at.total, at.free) {
      FreeMeansSelectable(s.workers, |s.workers|);
      MoveOrderly(s, e.c, Picking(at.priority, 0, -1, -1, 0.0));
    } else {
      MoveOrderly(s, e.c, Queued(at.priority));
    }
  }

  lemma LookOrderly(s: State, e: Event)
    requires Orderly(s) && e.Look? && Enabled(s, e)
    ensures Orderly(Apply(s, e))
  {
    var at := s.callers[e.c];
    assert PlaceOk(s.workers, at);
    var at' := Compared(at, s.workers[at.looked]);
    if at'.best < 0 {
      var i :| at.looked <= i < |s.workers| && s.workers[i].Selectable();
      assert i != at.looked;
    }
    MoveOrderly(s, e.c, at');
  }

  lemma ReadOrderly(s: State, e: Event)
    requires Orderly(s) && e.Read? && Enabled(s, e)
    ensures Orderly(Apply(s, e))
  {
    assert PlaceOk(s.workers, s.callers[e.c]);
    MoveOrderly(s, e.c, Counted(s.callers[e.c], s.workers[s.callers[e.c].read]));
  }

  lemma QueueOrderly(s: State, e: Event)
    requires Orderly(s) && (e.Enter? || e.Leave? || e.Lock?) && Enabled(s, e)
    ensures Orderly(Apply(s, e))
  {
    MoveOrderly(s, e.c, Apply(s, e).callers[e.c]);
  }

  lemma StepOrderly(s: State, e: Event)
    requires Orderly(s) && Enabled(s, e) && !e.Probe?
    ensures Orderly(Apply(s, e))
  {
    match e
    case Enter(_, _) => QueueOrderly(s, e);
    case Leave(_) => QueueOrderly(s, e);
    case Lock(_) => QueueOrderly(s, e);
    case Read(_) => ReadOrderly(s, e);
    case Decide(_) => DecideOrderly(s, e);
    case Look(_) => LookOrderly(s, e);
    case Take(_) => TakeOrderly(s, e);
    case NoteFreed(_) => FreeOrderly(s, e);
    case Return(_) =>
  }

  lemma {:induction false} RunSane(run: seq<State>, events: seq<Event>, k: nat)
    requires Interval(run, events) && k < |run| && AllSane(run[0].workers)
    ensures AllSane(run[k].workers)
  {
    if k > 0 {
      RunSane(run, events, k - 1);
    }
  }

  lemma {:induction false} OrderlyFrom(run: seq<State>, events: seq<Event>, j: nat, k: nat)
    requires Interval(run, events) && j <= k < |run| && AllSane(run[0].workers) && run[j].LockFree()
    ensures Orderly(run[k])
  {
    if j == k {
      RunSane(run, events, j);
    } else {
      OrderlyFrom(run, events, j, k - 1);
      StepOrderly(run[k - 1], events[k - 1]);
    }
  }

  /** Once nobody was inside the lock since the last probe, what a caller reads never overstates the
      fleet, and a stream that reads a free slot goes on to pick a worker. */
  lemma ReadsAreSafe(run: seq<State>, events: seq<Event>, j: nat, k: nat)
    requires Interval(run, events) && j <= k < |events| && AllSane(run[0].workers) && run[j].LockFree()
    requires events[k].Decide?
    ensures var at := run[k].callers[events[k].c];
            && at.total == Total(run[k].workers, |run[k].workers|)
            && at.free <= FreeSlots(run[k].workers, |run[k].workers|)
            && (at.priority == Stream && at.free > 0 ==> run[k + 1].callers[events[k].c].Picking?)
  {
    OrderlyFrom(run, events, j, k);
    assert PlaceOk(run[k].workers, run[k].callers[events[k].c]);
  }

  /** From then on an admitted caller always gets its slot: picking cannot fail after `capacity`
      admitted it, however many releases fall in between. */
  lemma AdmittedIsGranted(run: seq<State>, events: seq<Event>, j: nat, k: nat)
    requires Interval(run, events) && j <= k < |events| && AllSane(run[0].workers) && run[j].LockFree()
    requires events[k].Take?
    ensures var at := run[k].callers[events[k].c];
            && 0 <= at.best < |run[k].workers| && run[k].workers[at.best].Selectable()
            && run[k + 1].reservations == run[k].reservations + [Reservation(at.priority, at.best, Held)]
  {
    OrderlyFrom(run, events, j, k);
    TakeOrderly(run[k], events[k]);
  }

  // The ledger of a worker's busy count.

  /** What a worker is said to be busy with beyond this gateway's slots. */
  function Drift(s: State, w: nat): int
    requires w < |s.workers|
  {
    s.workers[w].slotsBusy - Count(s.reservations, On(w))
  }

  /** A correction that is cut off: a slot freed that was not counted busy, or a slot taken of a
      worker that was full. */
  function Slip(s: State, e: Event, w: nat): int
    requires w < |s.workers| && Enabled(s, e)
  {
    if e.NoteFreed? && s.reservations[e.r].worker == w && s.workers[w].slotsBusy == 0 then 1
    else if e.Take? && s.callers[e.c].best == w && s.workers[w].slotsBusy == s.workers[w].slotsTotal then -1
    else 0
  }

  lemma TakeLedger(s: State, e: Event, w: nat)
    requires Enabled(s, e) && e.Take? && w < |s.workers| && Sane(s.workers[w])
    ensures Sane(Apply(s, e).workers[w]) && Drift(Apply(s, e), w) == Drift(s, w) + Slip(s, e, w)
  {
    var at := s.callers[e.c];
    if at.best >= 0 {
      CountAppend(s.reservations, Reservation(at.priority, at.best, Held), On(w));
    }
  }

  lemma ReleaseLedger(s: State, e: Event, w: nat)
    requires Enabled(s, e) && (e.NoteFreed? || e.Return?) && w < |s.workers| && Sane(s.workers[w])
    ensures Sane(Apply(s, e).workers[w]) && Drift(Apply(s, e), w) == Drift(s, w) + Slip(s, e, w)
  {
    var r := s.reservations[e.r];
    CountUpdate(s.reservations, e.r, r.(progress := if e.NoteFreed? then Freed else Released), On(w));
  }

  lemma StepLedger(s: State, e: Event, w: nat)
    requires Enabled(s, e) && !e.Probe? && w < |s.workers| && Sane(s.workers[w])
    ensures var s' := Apply(s, e);
            && |s'.workers| == |s.workers| && Sane(s'.workers[w])
            && s'.workers[w].slotsTotal == s.workers[w].slotsTotal
            && Drift(s', w) == Drift(s, w) + Slip(s, e, w)
  {
    if e.Take? {
      TakeLedger(s, e, w);
    } else if e.NoteFreed? || e.Return? {
      ReleaseLedger(s, e, w);
    }
  }

  function Slips(run: seq<State>, events: seq<Event>, k: nat, w: nat): int
    requires IsRun(run, events) && k < |run| && forall i | 0 <= i < |run| :: w < |run[i].workers|
  {
    if k == 0 then 0 else Slips(run, events, k - 1, w) + Slip(run[k - 1], events[k - 1], w)
  }

  lemma {:induction false} FleetSize(run: seq<State>, events: seq<Event>, k: nat)
    requires IsRun(run, events) && k < |run|
    ensures |run[k].workers| == |run[0].workers|
  {
    if k > 0 {
      FleetSize(run, events, k - 1);
    }
  }

  /** Between probes, whatever the last one read: the busy count changes exactly with the slots held,
      but for the corrections that were cut off. */
  lemma {:induction false} BusyLedger(run: seq<State>, events: seq<Event>, k: nat, w: nat)
    requires Interval(run, events) && k < |run| && forall i | 0 <= i < |run| :: w < |run[i].workers|
    requires Sane(run[0].workers[w])
    ensures Sane(run[k].workers[w]) && run[k].workers[w].slotsTotal == run[0].workers[w].slotsTotal
    ensures Drift(run[k], w) == Drift(run[0], w) + Slips(run, events, k, w)
  {
    if k > 0 {
      BusyLedger(run, events, k - 1, w);
      StepLedger(run[k - 1], events[k - 1], w);
    }
  }

  // When corrections are cut off.

  predicate Bracketed(ws: seq<Snapshot>, at: Place) {
    at.Picking? ==> at.best < at.looked <= |ws|
  }

  /** What every reachable state is like, whatever probes have overtaken. */
  ghost predicate Basic(s: State) {
    && AllSane(s.workers) && OneLock(s.callers)
    && forall c | 0 <= c < |s.callers| :: Bracketed(s.workers, s.callers[c])
  }

  lemma MoveBasic(s: State, c: nat, at: Place)
    requires Basic(s) && c < |s.callers| && Bracketed(s.workers, at)
    requires Locked(at) ==> Locked(s.callers[c]) || s.LockFree()
    ensures Basic(Moved(s, c, at))
  {
  }

  lemma CallerBasic(s: State, e: Event)
    requires Basic(s) && Enabled(s, e) && (e.Enter? || e.Leave? || e.Lock? || e.Read? || e.Decide? || e.Look?)
    ensures Basic(Apply(s, e))
  {
    assert Bracketed(s.workers, s.callers[e.c]);
    MoveBasic(s, e.c, Apply(s, e).callers[e.c]);
  }

  lemma TakeBasic(s: State, e: Event)
    requires Basic(s) && Enabled(s, e) && e.Take?
    ensures Basic(Apply(s, e)) && Apply(s, e).LockFree()
  {
    var s' := Apply(s, e);
    forall d: nat | d < |s.callers|
      ensures !Locked(s'.callers[d])
    {
      if d != e.c {
        OthersIdle(s, e.c, d);
      }
    }
  }

  lemma StepBasic(s: State, e: Event)
    requires Basic(s) && Enabled(s, e) && (e.Probe? ==> Sane(e.reading))
    ensures Basic(Apply(s, e))
  {
    match e
    case Take(_) => TakeBasic(s, e);
    case NoteFreed(_) =>
    case Return(_) =>
    case Probe(_, _) =>
    case _ => CallerBasic(s, e);
  }

  /** From the start of the gateway on, through any probes that make sense. */
  lemma {:induction false} ReachableIsBasic(run: seq<State>, events: seq<Event>, k: nat)
    requires IsRun(run, events) && k < |run| && Begun(run[0]) && AllSane(run[0].workers)
    requires forall i | 0 <= i < |events| && events[i].Probe? :: Sane(events[i].reading)
    ensures Basic(run[k])
  {
    if k > 0 {
      ReachableIsBasic(run, events, k - 1);
      StepBasic(run[k - 1], events[k - 1]);
    }
  }

  lemma {:induction false} RunBasic(run: seq<State>, events: seq<Event>, k: nat)
    requires Interval(run, events) && k < |run| && Basic(run[0])
    ensures Basic(run[k])
  {
    if k > 0 {
      RunBasic(run, events, k - 1);
      StepBasic(run[k - 1], events[k - 1]);
    }
  }

  predicate Full(w: Snapshot) { w.slotsBusy == w.slotsTotal }

  predicate NoneBeats(ws: seq<Snapshot>, at: Place, from: nat)
    requires at.Picking?
  {
    forall i | from <= i < |ws| :: !Beats(ws[i], at)
  }

  /** Caller `c` is about to take a slot of worker `w`, which has none left, and will see no better. */
  predicate Doomed(s: State, w: nat, c: nat)
    requires w < |s.workers| && c < |s.callers|
  {
    var at := s.callers[c];
    at.Picking? && at.best == w && Full(s.workers[w]) && NoneBeats(s.workers, at, at.looked)
  }

  /** Somebody is. Only a probe that lands while a caller picks can bring this about. */
  ghost predicate Overfills(s: State, w: nat)
    requires w < |s.workers|
  {
    exists c | 0 <= c < |s.callers| :: Doomed(s, w, c)
  }

  lemma LockFreeOverfillsNone(s: State, w: nat)
    requires w < |s.workers| && s.LockFree()
    ensures !Overfills(s, w)
  {
    forall c | 0 <= c < |s.callers|
      ensures !Doomed(s, w, c)
    {
      assert !Locked(s.callers[c]);
    }
  }

  lemma FreeDooms(s: State, e: Event, w: nat, c: nat)
    requires Basic(s) && Enabled(s, e) && e.NoteFreed? && w < |s.workers| && c < |s.callers|
    requires Doomed(Apply(s, e), w, c)
    ensures Doomed(s, w, c)
  {
    var s', at := Apply(s, e), s.callers[c];
    forall i | at.looked <= i < |s.workers|
      ensures !Beats(s.workers[i], at)
    {
      assert !Beats(s'.workers[i], at);
      assert s.workers[i].Free() <= s'.workers[i].Free();
    }
  }

  lemma LookDooms(s: State, e: Event, w: nat)
    requires Basic(s) && Enabled(s, e) && e.Look? && w < |s.workers|
    requires Doomed(Apply(s, e), w, e.c)
    ensures Doomed(s, w, e.c)
  {
    var at := s.callers[e.c];
    var at' := Compared(at, s.workers[at.looked]);
    assert Apply(s, e).callers[e.c] == at';
    assert !Beats(s.workers[at.looked], at);
    forall i | at.looked <= i < |s.workers|
      ensures !Beats(s.workers[i], at)
    {
      assert i > at.looked ==> !Beats(s.workers[i], at');
    }
  }

  /** Between probes nobody comes to overfill a worker. */
  lemma StepDooms(s: State, e: Event, w: nat)
    requires Basic(s) && Enabled(s, e) && !e.Probe? && w < |s.workers| && !Overfills(s, w)
    ensures !Overfills(Apply(s, e), w)
  {
    var s' := Apply(s, e);
    if e.Take? {
      TakeBasic(s, e);
      LockFreeOverfillsNone(s', w);
    } else {
      forall c: nat | c < |s'.callers|
        ensures !Doomed(s', w, c)
      {
        assert !Doomed(s, w, c);
        if Doomed(s', w, c) {
          if e.NoteFreed? {
            FreeDooms(s, e, w, c);
          } else if e.Look? && e.c == c {
            LookDooms(s, e, w);
          }
        }
      }
    }
  }

  /** A slot is taken of a full worker only by a caller that overfills it, and freed unseen only of a
      worker read as less busy than is held. */
  lemma StepSlip(s: State, e: Event, w: nat)
    requires Basic(s) && Enabled(s, e) && w < |s.workers| && (e.Take? ==> !Overfills(s, w))
    ensures Slip(s, e, w) >= 0
    ensures Drift(s, w) >= 0 ==> Slip(s, e, w) == 0
  {
    if e.Take? {
      assert !Doomed(s, w, e.c);
    } else if e.NoteFreed? {
      CountUpdate(s.reservations, e.r, s.reservations[e.r], On(w));
    }
  }

  lemma {:induction false} DriftNeverFalls(run: seq<State>, events: seq<Event>, k: nat, w: nat)
    requires Interval(run, events) && k < |run| && Basic(run[0]) && w < |run[0].workers| && !Overfills(run[0], w)
    ensures w < |run[k].workers| && !Overfills(run[k], w) && Drift(run[0], w) <= Drift(run[k], w)
    ensures Drift(run[0], w) >= 0 ==> Drift(run[k], w) == Drift(run[0], w)
  {
    FleetSize(run, events, k);
    if k > 0 {
      DriftNeverFalls(run, events, k - 1, w);
      RunBasic(run, events, k - 1);
      StepLedger(run[k - 1], events[k - 1], w);
      StepSlip(run[k - 1], events[k - 1], w);
      StepDooms(run[k - 1], events[k - 1], w);
    }
  }

  /** The last probe counted the slots held on worker `w`, and overtook no caller about to take one. */
  ghost predicate InStep(s: State, w: nat)
    requires w < |s.workers|
  {
    Count(s.reservations, On(w)) <= s.workers[w].slotsBusy && !Overfills(s, w)
  }

  /** Then a worker's busy count is what the probe read plus the change in the slots held since. */
  lemma BusyIsProbePlusHeld(run: seq<State>, events: seq<Event>, k: nat, w: nat)
    requires Interval(run, events) && k < |run| && Basic(run[0]) && w < |run[0].workers| && InStep(run[0], w)
    ensures w < |run[k].workers|
    ensures run[k].workers[w].slotsBusy - Count(run[k].reservations, On(w))
         == run[0].workers[w].slotsBusy - Count(run[0].reservations, On(w))
    ensures 0 <= run[k].workers[w].slotsBusy <= run[k].workers[w].slotsTotal
  {
    DriftNeverFalls(run, events, k, w);
    RunBasic(run, events, k);
  }

  /** And no clamp of the pool fires for it: taking and freeing move its count by one. */
  lemma ClampsNeverFire(run: seq<State>, events: seq<Event>, k: nat, w: nat)
    requires Interval(run, events) && k < |events| && Basic(run[0]) && w < |run[0].workers| && InStep(run[0], w)
    ensures |run[k].workers| == |run[k + 1].workers| == |run[0].workers|
    ensures run[k + 1].workers[w].slotsBusy - run[k].workers[w].slotsBusy ==
            match events[k]
            case Take(c) => if run[k].callers[c].best == w then 1 else 0
            case NoteFreed(r) => if run[k].reservations[r].worker == w then -1 else 0
            case _ => 0
  {
    FleetSize(run, events, k);
    FleetSize(run, events, k + 1);
    RunBasic(run, events, k);
    DriftNeverFalls(run, events, k, w);
    StepSlip(run[k], events[k], w);
  }

  /** Every continuation up to the next probe keeps the count of worker `w` in step. */
  ghost predicate AlwaysInStep(s: State, w: nat)
    requires w < |s.workers|
  {
    forall run: seq<State>, events: seq<Event>, k: nat |
      Interval(run, events) && run[0] == s && k < |run| && w < |run[k].workers| :: Drift(run[k], w) == Drift(s, w)
  }

  lemma Prepend(s: State, e: Event, rest: seq<State>, more: seq<Event>) returns (run: seq<State>, events: seq<Event>)
    requires Enabled(s, e) && !e.Probe? && Interval(rest, more) && rest[0] == Apply(s, e)
    ensures Interval(run, events) && run[0] == s && run[|events|] == rest[|more|]
  {
    run, events := [s] + rest, [e] + more;
    forall i | 0 <= i < |events|
      ensures Enabled(run[i], events[i]) && run[i + 1] == Apply(run[i], events[i]) && !events[i].Probe?
    {
      assert i > 0 ==> run[i] == rest[i - 1] && run[i + 1] == rest[i] && events[i] == more[i - 1];
    }
  }

  lemma {:induction false} HoldsOne(rs: seq<Reservation>, w: nat) returns (r: nat)
    requires Count(rs, On(w)) > 0
    ensures r < |rs| && On(w)(rs[r])
  {
    var n := |rs| - 1;
    if On(w)(rs[n]) {
      r := n;
    } else {
      r := HoldsOne(rs[..n], w);
    }
  }

  /** Giving back the slots of a worker that was read as less busy runs its count into zero. */
  lemma {:induction false} FreesUntilZero(s: State, w: nat) returns (run: seq<State>, events: seq<Event>)
    requires w < |s.workers| && Sane(s.workers[w]) && Drift(s, w) < 0
    ensures Interval(run, events) && run[0] == s
    ensures w < |run[|events|].workers| && Drift(run[|events|], w) == Drift(s, w) + 1
    decreases s.workers[w].slotsBusy
  {
    var r := HoldsOne(s.reservations, w);
    var e := NoteFreed(r);
    var s' := Apply(s, e);
    StepLedger(s, e, w);
    if s.workers[w].slotsBusy == 0 {
      run, events := Prepend(s, e, [s'], []);
    } else {
      run, events := FreesUntilZero(s', w);
      run, events := Prepend(s, e, run, events);
    }
  }

  /** A doomed caller looks at the rest of the fleet and takes its slot: the count is cut off. */
  lemma {:induction false} TakesTheFull(s: State, w: nat, c: nat) returns (run: seq<State>, events: seq<Event>)
    requires Basic(s) && w < |s.workers| && c < |s.callers| && Doomed(s, w, c)
    ensures Interval(run, events) && run[0] == s
    ensures w < |run[|events|].workers| && Drift(run[|events|], w) == Drift(s, w) - 1
    decreases if s.callers[c].Picking? then |s.workers| - s.callers[c].looked else 0
  {
    var at := s.callers[c];
    assert Bracketed(s.workers, at);
    if at.looked == |s.workers| {
      StepLedger(s, Take(c), w);
      run, events := Prepend(s, Take(c), [Apply(s, Take(c))], []);
    } else {
      assert !Beats(s.workers[at.looked], at);
      var s' := Apply(s, Look(c));
      assert s'.callers[c] == at.(looked := at.looked + 1);
      StillDoomed(s, w, c);
      StepBasic(s, Look(c));
      run, events := TakesTheFull(s', w, c);
      run, events := Prepend(s, Look(c), run, events);
    }
  }

  lemma StillDoomed(s: State, w: nat, c: nat)
    requires w < |s.workers| && c < |s.callers| && Doomed(s, w, c) && Enabled(s, Look(c))
    ensures Doomed(Apply(s, Look(c)), w, c)
  {
    var at := s.callers[c];
    var at' := at.(looked := at.looked + 1);
    assert !Beats(s.workers[at.looked], at);
    assert Apply(s, Look(c)).callers[c] == at';
    forall i | at'.looked <= i < |s.workers|
      ensures !Beats(s.workers[i], at')
    {
      assert !Beats(s.workers[i], at);
    }
  }

  /** A probe leaves the count of a worker in step until the next one if and only if it read no less
      than this gateway holds there and did not fill it up under a caller about to take its slot. */
  lemma InStepExactly(s: State, w: nat)
    requires Basic(s) && w < |s.workers|
    ensures AlwaysInStep(s, w) <==> InStep(s, w)
  {
    if InStep(s, w) {
      forall run: seq<State>, events: seq<Event>, k: nat |
        Interval(run, events) && run[0] == s && k < |run| && w < |run[k].workers|
        ensures Drift(run[k], w) == Drift(s, w)
      {
        DriftNeverFalls(run, events, k, w);
      }
    } else if Drift(s, w) < 0 {
      var run, events := FreesUntilZero(s, w);
      assert Drift(run[|events|], w) != Drift(s, w);
    } else {
      var c: nat :| c < |s.callers| && Doomed(s, w, c);
      var run, events := TakesTheFull(s, w, c);
      assert Drift(run[|events|], w) != Drift(s, w);
    }
  }

  const Idle: Snapshot := Snapshot("worker", true, false, 1, 0, 0.0)

  predicate Reaches(run: seq<State>, events: seq<Event>, s: State) {
    IsRun(run, events) && Begun(run[0]) && run[|events|] == s
  }

  lemma Extend(run: seq<State>, events: seq<Event>, s: State, e: Event)
    returns (run': seq<State>, events': seq<Event>)
    requires Reaches(run, events, s) && Enabled(s, e)
    ensures Reaches(run', events', Apply(s, e))
  {
    run', events' := run + [Apply(s, e)], events + [e];
  }

  /** One caller of class `k` and one idle worker. */
  function Alone(k: Class, at: Place): State { State([Idle], map[], map[k := 1], [at], []) }

  function Granted(w: Snapshot): State {
    State([w], map[Stream := 1], map[Stream := 1], [Queued(Stream)], [Reservation(Stream, 0, Held)])
  }

  lemma SlotCounted(k: Class) returns (run: seq<State>, events: seq<Event>)
    ensures Reaches(run, events, Alone(k, Counting(k, 1, 1, 1)))
  {
    var s := State([Idle], map[], map[], [Away], []);
    run, events := Extend([s], [], s, Enter(0, k));
    assert [Away][0 := Queued(k)] == [Queued(k)];
    run, events := Extend(run, events, Alone(k, Queued(k)), Lock(0));
    run, events := Extend(run, events, Alone(k, Counting(k, 0, 0, 0)), Read(0));
  }

  lemma SlotPicked(k: Class) returns (run: seq<State>, events: seq<Event>)
    ensures Reaches(run, events, Alone(k, Picking(k, 1, 0, 1, 1.0)))
  {
    run, events := SlotCounted(k);
    run, events := Extend(run, events, Alone(k, Counting(k, 1, 1, 1)), Decide(0));
    run, events := Extend(run, events, Alone(k, Picking(k, 0, -1, -1, 0.0)), Look(0));
  }

  lemma SlotTaken() returns (run: seq<State>, events: seq<Event>)
    ensures Reaches(run, events, Granted(Idle.(slotsBusy := 1)))
  {
    run, events := SlotPicked(Stream);
    run, events := Extend(run, events, Alone(Stream, Picking(Stream, 1, 0, 1, 1.0)), Take(0));
  }

  /** The probe lands between the caller's last look and its taking: somebody else's request filled
      the worker, so the slot taken is not counted. */
  lemma ProbeCanOvertake() returns (run: seq<State>, events: seq<Event>, s: State)
    ensures Reaches(run, events, s) && Basic(s) && |s.workers| == 1
    ensures Count(s.reservations, On(0)) <= s.workers[0].slotsBusy && Overfills(s, 0)
  {
    var busy, at := Idle.(slotsBusy := 1), Picking(Stream, 1, 0, 1, 1.0);
    run, events := SlotPicked(Stream);
    run, events := Extend(run, events, Alone(Stream, at), Probe(0, busy));
    s := State([busy], map[], map[Stream := 1], [at], []);
    assert [Idle][0 := busy] == [busy];
    assert Doomed(s, 0, 0);
  }

  /** And such a probe happens: a health reply that was under way while the slot was taken. */
  lemma ProbeCanRace() returns (run: seq<State>, events: seq<Event>)
    ensures IsRun(run, events) && Begun(run[0])
    ensures Basic(run[|events|]) && |run[|events|].workers| == 1 && Drift(run[|events|], 0) == -1
  {
    run, events := SlotTaken();
    run, events := Extend(run, events, Granted(Idle.(slotsBusy := 1)), Probe(0, Idle));
    assert [Idle.(slotsBusy := 1)][0 := Idle] == [Idle];
    assert [Reservation(Stream, 0, Held)][..0] == [];
    assert Count(Granted(Idle).reservations, On(0)) == 1;
  }
}
