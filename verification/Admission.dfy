/** The dispatcher object: capacity, taking and giving back a slot, refusing early, and the timed
    wait of `Reserve`. Times are nanoseconds. */
module Admission {
  import opened Basics
  import opened WorkerPool
  import opened DispatchProtocol

  const Second: int := 1_000_000_000
  const RecheckInterval: int := 50_000_000
  const MinRetryAfter: int := Second
  const MaxRetryAfter: int := 30 * Second
  const InitialServiceTime: nat := Second
  const QueueDepthPerSlot: int := 2
  const MinQueueDepth: int := 2

  function Budget(k: Class): (r: int)
    ensures 2 * Second <= r <= 300 * Second
  {
    match k
    case Stream => 2 * Second
    case Sync => 10 * Second
    case Batch => 300 * Second
  }

  // Refusals.

  /** The Retry-After header: whole seconds, rounded up, never zero. */
  function RetryAfterSeconds(d: int): (r: int)
    ensures r >= 1 && d <= r * Second
    ensures r > 1 ==> (r - 1) * Second < d
  {
    var up := (d + Second - 1) / Second;
    if up < 1 then 1 else up
  }

  /** Waiting callers for each slot, rounded up. */
  function PerSlot(waiting: int, total: int): int {
    if total > 0 then (waiting + total - 1) / total else waiting
  }

  function Depth(total: int): (r: int)
    ensures r >= MinQueueDepth && r >= total * QueueDepthPerSlot
  {
    if total * QueueDepthPerSlot < MinQueueDepth then MinQueueDepth else total * QueueDepthPerSlot
  }

  function ExpectedWait(total: int, depth: nat, service: int): int {
    ((depth + 1) / (if total < 1 then 1 else total) + 1) * service
  }

  /** Whether a caller is turned away before queueing. */
  predicate Refuses(k: Class, total: int, free: int, depth: nat, service: int) {
    free <= 0 && (depth >= Depth(total) || ExpectedWait(total, depth, service) > Budget(k))
  }

  /** The first waiter never meets the depth bound; it is still turned away exactly when the mean
      service time is over the class budget, or over half of it on a fleet of at most one slot. */
  lemma FirstWaiter(k: Class, total: int, free: int, service: int)
    requires free <= 0 && service >= 0
    ensures Refuses(k, total, free, 0, service) <==> service > (if total <= 1 then Budget(k) / 2 else Budget(k))
  {
    if total > 1 {
      assert (0 + 1) / total == 0;
      assert ExpectedWait(total, 0, service) == service;
    } else {
      assert ExpectedWait(total, 0, service) == 2 * service;
    }
  }

  // What surrounds one call of Reserve.

  datatype Wake = Tick | Signal | Done

  /** The clock and the rest of the gateway as one caller meets them: at its `k`-th turn it reads
      the clock twice, sees the fleet, is woken, and finds so many other callers of each class
      queued and holding slots. */
  datatype World = World(
    start: int,
    check: nat -> int,
    until: nat -> int,
    fleet: nat -> seq<Snapshot>,
    wake: nat -> Wake,
    queued: nat -> Counts,
    held: nat -> Counts,
    service: nat -> nat,
    signals: nat)
  {
    /** Release signals this caller consumed before turn `k`. */
    ghost function Signals(k: nat): nat {
      if k == 0 then 0 else Signals(k - 1) + if wake(k - 1) == Signal then 1 else 0
    }

    /** Around turn `k`, time goes forward, a timer fires no earlier than it was set for, and other
        callers have released only so many slots. */
    ghost predicate FairAt(deadline: int, k: nat) {
      && check(k) <= until(k) <= check(k + 1)
      && (wake(k) == Tick && until(k) < deadline ==> check(k + 1) >= until(k) + Shorter(deadline - until(k)))
      && Signals(k) <= signals
      && Distinct(fleet(k)) && forall j :: At(queued(k), j) >= 0
    }

    ghost predicate Fair(deadline: int) {
      start <= check(0) && forall k: nat :: FairAt(deadline, k)
    }
  }

  function Shorter(remaining: int): int {
    if remaining > RecheckInterval then RecheckInterval else remaining
  }

  ghost predicate AdmitsNow(k: Class, ws: seq<Snapshot>) {
    Admits(k, Total(ws, |ws|), FreeSlots(ws, |ws|))
  }

  datatype Outcome = Granted | Overloaded(retryAfter: int) | Cancelled

  function GivenBack(w: Snapshot, addr: string): Snapshot { if w.addr == addr then Adjusted(w, -1) else w }

  /** A held slot; `released` is the cleared release function. */
  class Slot {
    const addr: string
    const priority: Class
    var released: bool

    constructor (addr: string, priority: Class)
      ensures this.addr == addr && this.priority == priority && !released
    {
      this.addr, this.priority, this.released := addr, priority, false;
    }
  }

  class Dispatcher {
    const pool: Pool
    var inFlight: Counts
    var waiting: Counts
    var serviceTime: nat
    /** The one-slot release channel. */
    var signalled: bool

    constructor (pool: Pool)
      ensures this.pool == pool && inFlight == map[] && waiting == map[]
      ensures serviceTime == InitialServiceTime && !signalled
    {
      this.pool, inFlight, waiting := pool, map[], map[];
      serviceTime, signalled := InitialServiceTime, false;
    }

    method Capacity() returns (total: int, free: int)
      ensures total == Total(pool.workers, |pool.workers|)
      ensures free == FreeSlots(pool.workers, |pool.workers|)
    {
      total, free := 0, 0;
      for i := 0 to |pool.workers|
        invariant total == Total(pool.workers, i) && free == FreeSlots(pool.workers, i)
      {
        var snap := pool.workers[i];
        if snap.Eligible() {
          total, free := total + snap.slotsTotal, free + snap.Free();
        }
      }
      if free < 0 {
        free := 0;
      }
    }

    method ShouldRefuse(k: Class) returns (refuse: bool)
      requires At(waiting, k) >= 0
      ensures refuse == Refuses(k, Total(pool.workers, |pool.workers|), FreeSlots(pool.workers, |pool.workers|),
                                At(waiting, k), serviceTime)
    {
      var total, free := Capacity();
      if free > 0 {
        return false;
      }
      var limit := total * QueueDepthPerSlot;
      if limit < MinQueueDepth {
        limit := MinQueueDepth;
      }
      var depth := At(waiting, k);
      if depth >= limit {
        return true;
      }
      var slots := if total < 1 then 1 else total;
      refuse := ((depth + 1) / slots + 1) * serviceTime > Budget(k);
    }

    /** Takes a slot exactly when the class may have one, on the best worker, and marks it busy. */
    method TryReserve(k: Class) returns (slot: Slot?, ghost at: nat)
      requires Distinct(pool.workers)
      modifies pool, this`inFlight
      ensures slot == null <==> !AdmitsNow(k, old(pool.workers))
      ensures slot == null ==> pool.workers == old(pool.workers) && inFlight == old(inFlight)
      ensures slot != null ==> fresh(slot) && slot.priority == k && !slot.released
      ensures slot != null ==> inFlight == Incremented(old(inFlight), k)
      ensures slot != null ==> OneMore(old(pool.workers), pool.workers, at) && pool.workers[at].addr == slot.addr
      ensures slot != null && old(pool.workers)[at].slotsBusy >= 0 ==>
                Adjusted(pool.workers[at], -1) == old(pool.workers)[at]
    {
      slot, at := null, 0;
      var total, free := Capacity();
      if free <= 0 || (k != Stream && free <= Reserved(total)) {
        return;
      }
      FreeMeansSelectable(pool.workers, |pool.workers|);
      var best := pool.Pick();
      if best < 0 {
        return;
      }
      inFlight := Incremented(inFlight, k);
      at := best;
      slot := new Slot(pool.workers[best].addr, k);
      pool.AdjustBusy(slot.addr, 1);
      assert pool.workers == old(pool.workers)[best := Adjusted(old(pool.workers)[best], 1)];
      assert OneMore(old(pool.workers), pool.workers, best);
    }

    /** Gives the slot back once; calling it again changes nothing. */
    method Release(slot: Slot, elapsed: nat)
      requires Distinct(pool.workers)
      modifies pool, this`inFlight, this`serviceTime, this`signalled, slot`released
      ensures slot.released
      ensures old(slot.released) ==> pool.workers == old(pool.workers) && inFlight == old(inFlight)
      ensures old(slot.released) ==> serviceTime == old(serviceTime) && signalled == old(signalled)
      ensures !old(slot.released) ==> inFlight == Decremented(old(inFlight), slot.priority) && signalled
      ensures !old(slot.released) ==> serviceTime == (3 * old(serviceTime) + elapsed) / 4
      ensures !old(slot.released) ==> |pool.workers| == |old(pool.workers)|
      ensures !old(slot.released) ==> forall i | 0 <= i < |pool.workers| ::
                  pool.workers[i] == GivenBack(old(pool.workers)[i], slot.addr)
    {
      if !slot.released {
        pool.AdjustBusy(slot.addr, -1);
        inFlight := Decremented(inFlight, slot.priority);
        serviceTime := (serviceTime * 3 + elapsed) / 4;
        signalled := true;
        slot.released := true;
      }
    }

    method Enter(k: Class)
      modifies this`waiting
      ensures waiting == Incremented(old(waiting), k)
    {
      waiting := waiting[k := At(waiting, k) + 1];
    }

    method Leave(k: Class)
      modifies this`waiting
      ensures waiting == Decremented(old(waiting), k)
    {
      waiting := waiting[k := At(waiting, k) - 1];
      if waiting[k] < 0 {
        waiting := waiting[k := 0];
      }
    }

    method Overload(k: Class) returns (retryAfter: int)
      requires At(waiting, k) >= 0
      ensures MinRetryAfter <= retryAfter <= MaxRetryAfter && 1 <= RetryAfterSeconds(retryAfter) <= 30
      ensures var ideal := PerSlot(At(waiting, k), Total(pool.workers, |pool.workers|)) * serviceTime;
              retryAfter == ideal || (ideal < MinRetryAfter == retryAfter) || (ideal > MaxRetryAfter == retryAfter)
    {
      var total, _ := Capacity();
      retryAfter := PerSlot(At(waiting, k), total) * serviceTime;
      if retryAfter < MinRetryAfter {
        retryAfter := MinRetryAfter;
      } else if retryAfter > MaxRetryAfter {
        retryAfter := MaxRetryAfter;
      }
    }

    /** Other callers come and go. */
    method Elapse(k: Class, world: World, turn: nat)
      modifies pool, this`inFlight, this`waiting, this`serviceTime
      ensures pool.workers == world.fleet(turn) && serviceTime == world.service(turn)
      ensures waiting == Incremented(world.queued(turn), k) && inFlight == world.held(turn)
    {
      pool.workers, serviceTime := world.fleet(turn), world.service(turn);
      waiting, inFlight := Incremented(world.queued(turn), k), world.held(turn);
    }

    /** One turn of the wait loop: an attempt, unless it comes too late. */
    method TakeTurn(k: Class, world: World, turn: nat)
      returns (done: Option<Outcome>, tried: bool, slot: Slot?, ghost at: nat)
      requires world.FairAt(world.start + Budget(k), turn)
      modifies pool, this`inFlight, this`waiting, this`serviceTime
      ensures TurnEnds(world, k, turn, done, tried, slot != null)
      ensures waiting == Incremented(world.queued(turn), k) && At(waiting, k) > 0
      ensures inFlight == if slot != null then Incremented(world.held(turn), k) else world.held(turn)
      ensures slot != null ==> slot.priority == k && !slot.released
      ensures slot != null ==> OneMore(world.fleet(turn), pool.workers, at) && pool.workers[at].addr == slot.addr
    {
      var deadline := world.start + Budget(k);
      done, tried, slot, at := None, false, null, 0;
      Elapse(k, world, turn);
      if turn > 0 && world.check(turn) > deadline {
        var retry := Overload(k);
        done := Some(Overloaded(retry));
        return;
      }
      tried := true;
      slot, at := TryReserve(k);
      if slot != null {
        done := Some(Granted);
      } else if deadline - world.until(turn) <= 0 {
        var retry := Overload(k);
        done := Some(Overloaded(retry));
      } else if world.wake(turn) == Done {
        done := Some(Cancelled);
      }
    }

    /** The wait loop. It ends: every turn consumes one of the finitely many release signals or lets
        the clock advance. A slot is granted on the first turn whose fleet admits the class, and
        after the first turn only if the deadline had not passed when the turn began; it is refused
        only once the deadline is reached. */
    method Await(k: Class, world: World)
      returns (outcome: Outcome, attempts: nat, slot: Slot?, ghost at: nat, ghost seen: nat)
      requires world.Fair(world.start + Budget(k))
      modifies pool, this`inFlight, this`waiting, this`serviceTime
      ensures attempts > 0 && (outcome.Granted? <==> slot != null) && attempts - 1 <= seen <= attempts
      ensures waiting == Incremented(world.queued(seen), k) && At(waiting, k) > 0
      ensures inFlight == if outcome.Granted? then Incremented(world.held(seen), k) else world.held(seen)
      ensures forall i: nat | i < attempts - 1 :: !AdmitsNow(k, world.fleet(i))
      ensures outcome.Granted? <==> AdmitsNow(k, world.fleet(attempts - 1))
      ensures slot != null ==> slot.priority == k && !slot.released
      ensures slot != null ==> OneMore(world.fleet(attempts - 1), pool.workers, at)
      ensures slot != null ==> pool.workers[at].addr == slot.addr
      ensures outcome.Granted? ==> attempts == 1 || world.check(attempts - 1) <= world.start + Budget(k)
      ensures outcome.Overloaded? ==> 1 <= RetryAfterSeconds(outcome.retryAfter) <= 30
      ensures outcome.Overloaded? ==> world.check(attempts) >= world.start + Budget(k)
      ensures outcome.Cancelled? ==> world.wake(attempts - 1) == Done
      ensures attempts <= world.signals + Budget(k) / RecheckInterval + 2
    {
      var deadline := world.start + Budget(k);
      attempts, slot, at, seen := 0, null, 0, 0;
      while true
        invariant slot == null && Pace(world, deadline, attempts)
        invariant forall i: nat | i < attempts :: !AdmitsNow(k, world.fleet(i))
        decreases world.signals - world.Signals(attempts), Left(world, deadline, attempts)
      {
        PaceBounds(world, k, attempts);
        var done, tried;
        done, tried, slot, at := TakeTurn(k, world, attempts);
        seen := attempts;
        if tried {
          attempts := attempts + 1;
        }
        if done.Some? {
          return done.value, attempts, slot, at, seen;
        }
        NextTurn(world, deadline, attempts - 1);
      }
    }

    /** Takes a slot or refuses: at once when the caller could not be served anyway, otherwise after
        the wait. On every exit exactly the other callers are counted as waiting. */
    method Reserve(k: Class, world: World)
      returns (outcome: Outcome, attempts: nat, slot: Slot?, ghost at: nat, ghost seen: nat)
      requires world.Fair(world.start + Budget(k)) && At(waiting, k) >= 0
      modifies pool, this`inFlight, this`waiting, this`serviceTime
      ensures attempts == 0 <==> Refuses(k, Total(old(pool.workers), |old(pool.workers)|),
                                         FreeSlots(old(pool.workers), |old(pool.workers)|),
                                         old(At(waiting, k)), old(serviceTime))
      ensures attempts == 0 ==> outcome.Overloaded? && waiting == old(waiting) && inFlight == old(inFlight)
      ensures attempts > 0 ==> attempts - 1 <= seen <= attempts
      ensures attempts > 0 ==> forall j :: At(waiting, j) == At(world.queued(seen), j)
      ensures attempts > 0 ==>
                inFlight == if outcome.Granted? then Incremented(world.held(seen), k) else world.held(seen)
      ensures outcome.Granted? <==> slot != null
      ensures attempts > 0 ==> (outcome.Granted? <==> AdmitsNow(k, world.fleet(attempts - 1)))
      ensures forall i: nat | i < attempts - 1 :: !AdmitsNow(k, world.fleet(i))
      ensures slot != null ==> attempts > 0 && slot.priority == k && !slot.released
      ensures slot != null ==> OneMore(world.fleet(attempts - 1), pool.workers, at)
      ensures slot != null ==> pool.workers[at].addr == slot.addr
      ensures outcome.Granted? ==> attempts == 1 || world.check(attempts - 1) <= world.start + Budget(k)
      ensures outcome.Overloaded? ==> 1 <= RetryAfterSeconds(outcome.retryAfter) <= 30
      ensures outcome.Overloaded? && attempts > 0 ==> world.check(attempts) >= world.start + Budget(k)
      ensures outcome.Cancelled? ==> attempts > 0 && world.wake(attempts - 1) == Done
      ensures attempts <= world.signals + Budget(k) / RecheckInterval + 2
    {
      attempts, slot, at, seen := 0, null, 0, 0;
      var refuse := ShouldRefuse(k);
      if refuse {
        var retry := Overload(k);
        outcome := Overloaded(retry);
        return;
      }
      Enter(k);
      outcome, attempts, slot, at, seen := Await(k, world);
      Leave(k);
    }
  }

  /** How a turn may end: with a slot exactly when it was in time and the fleet admitted the class,
      refused with the deadline reached, cancelled, or with the wait going on. */
  ghost predicate TurnEnds(world: World, k: Class, turn: nat, done: Option<Outcome>, tried: bool, granted: bool) {
    var deadline := world.start + Budget(k);
    && tried == (turn == 0 || world.check(turn) <= deadline)
    && (granted <==> tried && AdmitsNow(k, world.fleet(turn))) && (granted <==> done == Some(Granted))
    && (match done
        case None => tried && world.until(turn) < deadline && world.wake(turn) != Done
        case Some(Granted) => true
        case Some(Overloaded(retryAfter)) =>
          1 <= RetryAfterSeconds(retryAfter) <= 30 && world.check(if tried then turn + 1 else turn) >= deadline
        case Some(Cancelled) => tried && world.wake(turn) == Done)
  }

  // The pace of the wait loop.

  ghost predicate Pace(world: World, deadline: int, turn: nat) {
    turn > 0 ==>
      && world.until(turn - 1) < deadline && world.wake(turn - 1) != Done
      && (turn - 1 - world.Signals(turn - 1)) * RecheckInterval <= world.until(turn - 1) - world.start
  }

  ghost function Left(world: World, deadline: int, turn: nat): nat {
    if world.check(turn) < deadline then deadline - world.check(turn) else 0
  }

  lemma PaceBounds(world: World, k: Class, turn: nat)
    requires world.Fair(world.start + Budget(k)) && Pace(world, world.start + Budget(k), turn)
    ensures turn <= world.signals + Budget(k) / RecheckInterval + 1
    ensures world.FairAt(world.start + Budget(k), turn)
  {
    if turn > 0 {
      assert world.FairAt(world.start + Budget(k), turn - 1);
    }
  }

  lemma NextTurn(world: World, deadline: int, turn: nat)
    requires world.Fair(deadline) && Pace(world, deadline, turn)
    requires world.until(turn) < deadline && world.wake(turn) != Done
    ensures Pace(world, deadline, turn + 1)
    ensures world.Signals(turn + 1) == world.Signals(turn) + (if world.wake(turn) == Signal then 1 else 0)
    ensures world.Signals(turn + 1) <= world.signals
    ensures world.wake(turn) == Tick ==> Left(world, deadline, turn + 1) < Left(world, deadline, turn)
  {
    assert world.FairAt(deadline, turn) && world.FairAt(deadline, turn + 1);
    if turn > 0 {
      assert world.FairAt(deadline, turn - 1);
    }
  }
}
