/** The gateway's view of its workers: health snapshots, the choice of a worker for a request, and
    the corrections of the busy count between two health probes. */
module WorkerPool {

  datatype Snapshot = Snapshot(
    addr: string,
    ready: bool,
    ejected: bool,
    slotsTotal: int,
    slotsBusy: int,
    rtf: real)
  {
    /** Idle slots; a worker that reports more busy slots than it has counts as full. */
    function Free(): (r: int)
      ensures r >= 0
      ensures slotsBusy <= slotsTotal ==> r + slotsBusy == slotsTotal
    {
      if slotsTotal - slotsBusy < 0 then 0 else slotsTotal - slotsBusy
    }

    predicate Eligible() { ready && !ejected }

    predicate Selectable() { Eligible() && Free() > 0 }

    /** A worker that has served nothing yet counts as average. */
    function Speed(): real { if rtf == 0.0 then 1.0 else rtf }
  }

  /** Slots of the first `n` workers that may be used at all. */
  ghost function Total(ws: seq<Snapshot>, n: nat): int
    requires n <= |ws|
  {
    if n == 0 then 0 else Total(ws, n - 1) + if ws[n - 1].Eligible() then ws[n - 1].slotsTotal else 0
  }

  ghost function FreeSlots(ws: seq<Snapshot>, n: nat): (r: int)
    requires n <= |ws|
    ensures r >= 0
  {
    if n == 0 then 0 else FreeSlots(ws, n - 1) + if ws[n - 1].Eligible() then ws[n - 1].Free() else 0
  }

  /** There is a free slot exactly when some worker can be picked. */
  lemma {:induction false} FreeMeansSelectable(ws: seq<Snapshot>, n: nat)
    requires n <= |ws|
    ensures FreeSlots(ws, n) > 0 <==> exists i | 0 <= i < n :: ws[i].Selectable()
  {
    if n > 0 {
      FreeMeansSelectable(ws, n - 1);
      if ws[n - 1].Selectable() {
        assert FreeSlots(ws, n) > 0;
      } else {
        assert FreeSlots(ws, n) == FreeSlots(ws, n - 1);
      }
    }
  }

  /** Most free slots; among those the fastest; among those the first. */
  ghost predicate Best(ws: seq<Snapshot>, n: nat, i: nat)
    requires n <= |ws|
  {
    && i < n && ws[i].Selectable()
    && (forall j | 0 <= j < n && ws[j].Selectable() ::
          ws[j].Free() < ws[i].Free() || (ws[j].Free() == ws[i].Free() && ws[i].Speed() <= ws[j].Speed()))
    && (forall j | 0 <= j < i && ws[j].Selectable() ::
          ws[j].Free() < ws[i].Free() || ws[i].Speed() < ws[j].Speed())
  }

  ghost predicate NoneSelectable(ws: seq<Snapshot>, n: nat)
    requires n <= |ws|
  {
    forall j | 0 <= j < n :: !ws[j].Selectable()
  }

  /** The chosen worker is determined by the snapshots. */
  lemma BestUnique(ws: seq<Snapshot>, i: nat, j: nat)
    requires Best(ws, |ws|, i) && Best(ws, |ws|, j)
    ensures i == j
  {
    assert ws[i].Selectable() && ws[j].Selectable();
  }

  predicate Distinct(ws: seq<Snapshot>) {
    forall i, j | 0 <= i < j < |ws| :: ws[i].addr != ws[j].addr
  }

  function Clamp(busy: int, total: int): int {
    var low := if busy < 0 then 0 else busy;
    if low > total then total else low
  }

  function Adjusted(w: Snapshot, delta: int): Snapshot {
    w.(slotsBusy := Clamp(w.slotsBusy + delta, w.slotsTotal))
  }

  /** One more slot of worker `w` is busy, and nothing else changed. */
  ghost predicate OneMore(ws: seq<Snapshot>, ws': seq<Snapshot>, w: nat) {
    && Best(ws, |ws|, w)
    && ws' == ws[w := Adjusted(ws[w], 1)]
  }

  class Pool {
    var workers: seq<Snapshot>

    constructor (addrs: seq<string>)
      ensures |workers| == |addrs|
      ensures forall i | 0 <= i < |addrs| :: workers[i] == Snapshot(addrs[i], false, false, 0, 0, 0.0)
    {
      workers := seq(|addrs|, i requires 0 <= i < |addrs| => Snapshot(addrs[i], false, false, 0, 0, 0.0));
    }

    /** The least busy worker, or -1 when none can take a request. */
    method Pick() returns (best: int)
      ensures best >= 0 ==> Best(workers, |workers|, best)
      ensures forall i: nat | Best(workers, |workers|, i) :: i == best
      ensures best < 0 <==> NoneSelectable(workers, |workers|)
    {
      best := -1;
      var bestFree, bestSpeed := -1, 0.0;
      for i := 0 to |workers|
        invariant best < 0 ==> bestFree == -1 && NoneSelectable(workers, i)
        invariant best >= 0 ==> Best(workers, i, best)
        invariant best >= 0 ==> bestFree == workers[best].Free() && bestSpeed == workers[best].Speed()
      {
        var w := workers[i];
        if w.Selectable() {
          if w.Free() > bestFree || (w.Free() == bestFree && w.Speed() < bestSpeed) {
            best, bestFree, bestSpeed := i, w.Free(), w.Speed();
          }
        }
      }
      if best >= 0 {
        forall i: nat | Best(workers, |workers|, i)
          ensures i == best
        {
          BestUnique(workers, i, best);
        }
      }
    }

    /** Adds `delta` to the busy count of the worker at `addr`, between 0 and its slots. An unknown
        address changes nothing. */
    method AdjustBusy(addr: string, delta: int)
      requires Distinct(workers)
      modifies this
      ensures |workers| == |old(workers)| && Distinct(workers)
      ensures forall i | 0 <= i < |workers| ::
                workers[i] == if old(workers)[i].addr == addr then Adjusted(old(workers)[i], delta) else old(workers)[i]
    {
      var i := 0;
      while i < |workers| && workers[i].addr != addr
        invariant 0 <= i <= |workers|
        invariant forall j | 0 <= j < i :: workers[j].addr != addr
      {
        i := i + 1;
      }
      if i < |workers| {
        var busy := workers[i].slotsBusy + delta;
        if busy < 0 {
          busy := 0;
        }
        if busy > workers[i].slotsTotal {
          busy := workers[i].slotsTotal;
        }
        workers := workers[i := workers[i].(slotsBusy := busy)];
      }
    }
  }
}
