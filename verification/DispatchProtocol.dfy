/** Admission to the worker fleet. Callers take turns under the dispatcher's lock to read the fleet
    snapshot by snapshot, pick a worker and take a slot; releases and health probes change the
    pool's view outside that lock, so they fall between any two of those reads. */
module DispatchProtocol {
  import opened WorkerPool

  datatype Class = Stream | Sync | Batch

  const StreamReservePercent: nat := 30

  /** Slots kept for streams; Go's division truncates toward zero. */
  function Reserved(total: int): (r: int)
    ensures total >= 0 ==> 0 <= r && 100 * r <= 30 * total < 100 * (r + 1)
  {
    if total >= 0 then total * StreamReservePercent / 100 else -(-total * StreamReservePercent / 100)
  }

  /** Whether a class may take a slot of a fleet seen with so many free slots. */
  predicate Admits(priority: Class, total: int, free: int) {
    free > 0 && (priority == Stream || free > Reserved(total))
  }

  /** A Go map of counters: a missing key reads as zero. */
  type Counts = map<Class, int>

  function At(m: Counts, k: Class): int { if k in m then m[k] else 0 }

  function Incremented(m: Counts, k: Class): Counts { m[k := At(m, k) + 1] }

  function Decremented(m: Counts, k: Class): Counts {
    m[k := if At(m, k) - 1 < 0 then 0 else At(m, k) - 1]
  }

  /** Release is two calls: the pool is told first, the dispatcher after. */
  datatype Progress = Held | Freed | Released

  datatype Reservation = Reservation(priority: Class, worker: nat, progress: Progress)

  /** Where a caller of `Reserve` stands; while counting and picking it holds the lock. */
  datatype Place =
    | Away
    | Queued(priority: Class)
    | Counting(priority: Class, read: nat, total: int, free: int)
    | Picking(priority: Class, looked: nat, best: int, bestFree: int, bestSpeed: real)

  predicate Locked(at: Place) { at.Counting? || at.Picking? }

  datatype State = State(
    workers: seq<Snapshot>,
    inFlight: Counts,
    waiting: Counts,
    callers: seq<Place>,
    reservations: seq<Reservation>)
  {
    predicate LockFree() { forall c | 0 <= c < |callers| :: !Locked(callers[c]) }
  }

  datatype Event =
    | Enter(c: nat, priority: Class)
    | Leave(c: nat)
    | Lock(c: nat)
    | Read(c: nat)
    | Decide(c: nat)
    | Look(c: nat)
    | Take(c: nat)
    | NoteFreed(r: nat)
    | Return(r: nat)
    | Probe(w: nat, reading: Snapshot)

  predicate Enabled(s: State, e: Event) {
    match e
    case Enter(c, _) => c < |s.callers| && s.LockFree() && s.callers[c].Away?
    case Leave(c) => c < |s.callers| && s.LockFree() && s.callers[c].Queued?
    case Lock(c) => c < |s.callers| && s.LockFree() && s.callers[c].Queued?
    case Read(c) => c < |s.callers| && s.callers[c].Counting? && s.callers[c].read < |s.workers|
    case Decide(c) => c < |s.callers| && s.callers[c].Counting? && s.callers[c].read == |s.workers|
    case Look(c) => c < |s.callers| && s.callers[c].Picking? && s.callers[c].looked < |s.workers|
    case Take(c) => c < |s.callers| && s.callers[c].Picking? && s.callers[c].looked == |s.workers|
    case NoteFreed(r) => r < |s.reservations| && s.reservations[r].progress == Held
    case Return(r) => r < |s.reservations| && s.LockFree() && s.reservations[r].progress == Freed
    case Probe(w, reading) => w < |s.workers| && reading.addr == s.workers[w].addr
  }

  /** One more snapshot read by `capacity`. */
  function Counted(at: Place, w: Snapshot): Place
    requires at.Counting?
  {
    if w.Eligible() then Counting(at.priority, at.read + 1, at.total + w.slotsTotal, at.free + w.Free())
    else at.(read := at.read + 1)
  }

  /** Whether `Pick` prefers a worker to the best it has seen. */
  predicate Beats(w: Snapshot, at: Place)
    requires at.Picking?
  {
    w.Selectable() && (w.Free() > at.bestFree || (w.Free() == at.bestFree && w.Speed() < at.bestSpeed))
  }

  /** One more snapshot compared by `Pick`. */
  function Compared(at: Place, w: Snapshot): Place
    requires at.Picking?
  {
    if Beats(w, at)
    then Picking(at.priority, at.looked + 1, at.looked, w.Free(), w.Speed())
    else at.(looked := at.looked + 1)
  }

  function Adjust(ws: seq<Snapshot>, w: nat, delta: int): seq<Snapshot> {
    if w < |ws| then ws[w := Adjusted(ws[w], delta)] else ws
  }

  function Moved(s: State, c: nat, at: Place): State
    requires c < |s.callers|
  {
    s.(callers := s.callers[c := at])
  }

  function Taken(s: State, c: nat, k: Class, w: nat): State
    requires c < |s.callers|
  {
    s.(workers := Adjust(s.workers, w, 1), inFlight := Incremented(s.inFlight, k),
    callers := s.callers[c := Queued(k)], reservations := s.reservations + [Reservation(k, w, Held)])
  }

  function Apply(s: State, e: Event): State
    requires Enabled(s, e)
  {
    match e
    case Enter(c, k) => Moved(s, c, Queued(k)).(waiting := Incremented(s.waiting, k))
    case Leave(c) => Moved(s, c, Away).(waiting := Decremented(s.waiting, s.callers[c].priority))
    case Lock(c) => Moved(s, c, Counting(s.callers[c].priority, 0, 0, 0))
    case Read(c) => Moved(s, c, Counted(s.callers[c], s.workers[s.callers[c].read]))
    case Decide(c) =>
      var at := s.callers[c];
      Moved(s, c, if Admits(at.priority, at.total, at.free) then Picking(at.priority, 0, -1, -1, 0.0)
            else Queued(at.priority))
    case Look(c) => Moved(s, c, Compared(s.callers[c], s.workers[s.callers[c].looked]))
    case Take(c) =>
      var at := s.callers[c];
      if at.best < 0 then Moved(s, c, Queued(at.priority)) else Taken(s, c, at.priority, at.best)
    case NoteFreed(r) =>
      s.(workers := Adjust(s.workers, s.reservations[r].worker, -1),
      reservations := s.reservations[r := s.reservations[r].(progress := Freed)])
    case Return(r) =>
      s.(inFlight := Decremented(s.inFlight, s.reservations[r].priority),
      reservations := s.reservations[r := s.reservations[r].(progress := Released)])
    case Probe(w, reading) => s.(workers := s.workers[w := reading])
  }

  // Counting.

  function Count<T>(xs: seq<T>, p: T -> bool): (n: nat)
    ensures n <= |xs|
  {
    if xs == [] then 0 else Count(xs[..|xs| - 1], p) + if p(xs[|xs| - 1]) then 1 else 0
  }

  lemma {:induction false} CountUpdate<T>(xs: seq<T>, i: nat, x: T, p: T -> bool)
    requires i < |xs|
    ensures Count(xs[i := x], p) == Count(xs, p) - (if p(xs[i]) then 1 else 0) + (if p(x) then 1 else 0)
    ensures p(xs[i]) ==> Count(xs, p) > 0
  {
    var n := |xs| - 1;
    if i < n {
      CountUpdate(xs[..n], i, x, p);
      assert xs[i := x][..n] == xs[..n][i := x];
    } else {
      assert xs[i := x][..n] == xs[..n];
    }
  }

  lemma CountAppend<T>(xs: seq<T>, x: T, p: T -> bool)
    ensures Count(xs + [x], p) == Count(xs, p) + if p(x) then 1 else 0
  {
    assert (xs + [x])[..|xs|] == xs;
  }

  /** Slots of worker `w` that this gateway still holds. */
  function On(w: nat): Reservation -> bool {
    (r: Reservation) => r.worker == w && r.progress == Held
  }

  /** Reservations of a class whose release the dispatcher has not seen. */
  function Of(k: Class): Reservation -> bool {
    (r: Reservation) => r.priority == k && r.progress != Released
  }

  function Waits(k: Class): Place -> bool {
    (at: Place) => !at.Away? && at.priority == k
  }

  /** Held sync and batch slots of the usable workers `up`. */
  function Low(up: set<nat>): Reservation -> bool {
    (r: Reservation) => r.worker in up && r.priority != Stream && r.progress == Held
  }

  function Up(ws: seq<Snapshot>): set<nat> { set i: nat | i < |ws| && ws[i].Eligible() }

  // Runs.

  predicate IsRun(run: seq<State>, events: seq<Event>) {
    && |run| == |events| + 1
    && forall i | 0 <= i < |events| :: Enabled(run[i], events[i]) && run[i + 1] == Apply(run[i], events[i])
  }

  /** A run between two probes. */
  predicate Interval(run: seq<State>, events: seq<Event>) {
    IsRun(run, events) && forall i | 0 <= i < |events| :: !events[i].Probe?
  }

  /** The gateway has just started; nothing is known of the fleet. */
  predicate Begun(s: State) {
    && s.reservations == [] && s.inFlight == map[] && s.waiting == map[]
    && forall c | 0 <= c < |s.callers| :: s.callers[c].Away?
  }
}
