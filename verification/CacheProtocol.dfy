/** The audio cache under concurrency: stores, lookups, index expiry, eviction sweeps and crashes,
    with every call to the index, the object store or the catalogue a step of its own. */
module CacheProtocol {
  import opened Basics

  type Body = seq<Byte>

  /** A SHA-256 sum. */
  type Key = k: seq<Byte> | |k| == 32 witness seq(32, _ => 0)

  // Object paths.

  function HexDigit(n: nat): char
    requires n < 16
  {
    if n < 10 then '0' + n as char else 'a' + (n - 10) as char
  }

  function Hex(bytes: seq<Byte>): (s: string)
    ensures |s| == 2 * |bytes|
  {
    if bytes == [] then ""
    else [HexDigit(bytes[0] / 16), HexDigit(bytes[0] % 16)] + Hex(bytes[1..])
  }

  function ObjectKey(k: Key): string {
    "cache/" + Hex(k)[..2] + "/" + Hex(k) + ".pcm"
  }

  lemma {:induction false} HexInjective(a: seq<Byte>, b: seq<Byte>)
    requires Hex(a) == Hex(b)
    ensures a == b
  {
    if a != [] {
      var x, y := Hex(a), Hex(b);
      assert x[0] == y[0] && x[1] == y[1];
      assert x[2..] == Hex(a[1..]) && y[2..] == Hex(b[1..]);
      HexInjective(a[1..], b[1..]);
      assert a[0] / 16 == b[0] / 16 && a[0] % 16 == b[0] % 16;
      assert a == [a[0]] + a[1..] && b == [b[0]] + b[1..];
    }
  }

  lemma HexInside(k: Key)
    ensures |ObjectKey(k)| == 77 && ObjectKey(k)[9..73] == Hex(k)
  {
    var head := "cache/" + Hex(k)[..2] + "/";
    assert |head| == 9 && ObjectKey(k) == head + Hex(k) + ".pcm";
  }

  /** No two keys share an object. */
  lemma ObjectKeyInjective(a: Key, b: Key)
    requires ObjectKey(a) == ObjectKey(b)
    ensures a == b
  {
    HexInside(a);
    HexInside(b);
    HexInjective(a, b);
  }

  // State.

  datatype Entry = Entry(key: Key, path: string)

  /** The next call of one goroutine: three for a store, up to three for a lookup, two for every entry
      an eviction sweep has listed. */
  datatype Place =
    | Idle
    | Putting(key: Key, body: Body)
    | Recording(key: Key)
    | Indexing(key: Key)
    | Asking(key: Key)
    | Opening(key: Key, path: string)
    | Dropping(key: Key)
    | Touching(key: Key, body: Body)
    | Hit(key: Key, body: Body)
    | Miss
    | Sweeping(todo: seq<Entry>)
    | Unlisting(key: Key, todo: seq<Entry>)

  /** `puts` remembers which bodies were ever written for which key. */
  datatype State = State(
    objects: map<string, Body>,
    rows: map<Key, string>,
    index: map<Key, string>,
    places: seq<Place>,
    puts: set<(Key, Body)>)

  /** A call reports success or not (`ok`); a failed call may have taken effect all the same. */
  datatype Event =
    | Begin(p: nat, place: Place)
    | Call(p: nat, ok: bool, applied: bool)
    | Crash(p: nat)
    | Expire(key: Key)

  predicate Over(at: Place) { at.Idle? || at.Hit? || at.Miss? }

  predicate Startable(s: State, at: Place) {
    match at
    case Putting(_, _) => true
    case Asking(_) => true
    case Sweeping(todo) => forall e | e in todo :: e.key in s.rows && e.path == s.rows[e.key]
    case _ => false
  }

  predicate Enabled(s: State, e: Event) {
    match e
    case Begin(p, at) => p < |s.places| && Over(s.places[p]) && Startable(s, at)
    case Call(p, ok, applied) => p < |s.places| && !Over(s.places[p]) && (ok ==> applied)
    case Crash(p) => p < |s.places|
    case Expire(k) => k in s.index
  }

  function Moved(s: State, p: nat, at: Place): State
    requires p < |s.places|
  {
    s.(places := s.places[p := at])
  }

  /** Where a call leads. */
  function Next(s: State, at: Place, ok: bool): Place {
    match at
    case Putting(k, _) => if ok then Recording(k) else Idle
    case Recording(k) => if ok then Indexing(k) else Idle
    case Indexing(_) => Idle
    case Asking(k) => if ok && k in s.index then Opening(k, s.index[k]) else Miss
    case Opening(k, path) => if ok && path in s.objects then Touching(k, s.objects[path]) else Dropping(k)
    case Dropping(_) => Miss
    case Touching(k, body) => if ok then Hit(k, body) else Miss
    case Sweeping(todo) =>
      if todo == [] then Idle else if ok then Unlisting(todo[0].key, todo[1..]) else Sweeping(todo[1..])
    case Unlisting(_, todo) => if ok then Sweeping(todo) else Idle
    case _ => at
  }

  /** What a call that takes effect changes. */
  function Effect(s: State, at: Place): State {
    match at
    case Putting(k, body) => s.(objects := s.objects[ObjectKey(k) := body], puts := s.puts + {(k, body)})
    case Recording(k) => s.(rows := s.rows[k := ObjectKey(k)])
    case Indexing(k) => s.(index := s.index[k := ObjectKey(k)])
    case Dropping(k) => s.(index := s.index - {k})
    case Sweeping(todo) => if todo == [] then s else s.(objects := s.objects - {todo[0].path})
    case Unlisting(k, _) => s.(rows := s.rows - {k})
    case _ => s
  }

  lemma EffectPlaces(s: State, at: Place)
    ensures Effect(s, at).places == s.places
  {
  }

  function Apply(s: State, e: Event): State
    requires Enabled(s, e)
  {
    match e
    case Begin(p, at) => Moved(s, p, at)
    case Call(p, ok, applied) =>
      var s' := if applied then Effect(s, s.places[p]) else s;
      s'.(places := s.places[p := Next(s, s.places[p], ok)])
    case Crash(p) => Moved(s, p, Idle)
    case Expire(k) => s.(index := s.index - {k})
  }

  predicate Initial(s: State) {
    && s.objects == map[] && s.rows == map[] && s.index == map[] && s.puts == {}
    && forall p | 0 <= p < |s.places| :: s.places[p].Idle?
  }

  predicate IsRun(run: seq<State>, events: seq<Event>) {
    && |run| == |events| + 1 && Initial(run[0])
    && forall i | 0 <= i < |events| :: Enabled(run[i], events[i]) && run[i + 1] == Apply(run[i], events[i])
  }

  // A hit is what was stored.

  ghost predicate Stored(s: State) {
    forall k: Key | ObjectKey(k) in s.objects :: (k, s.objects[ObjectKey(k)]) in s.puts
  }

  predicate Pathed(m: map<Key, string>) {
    forall k | k in m :: m[k] == ObjectKey(k)
  }

  predicate Listed(todo: seq<Entry>) {
    forall i | 0 <= i < |todo| :: todo[i].path == ObjectKey(todo[i].key)
  }

  predicate PlaceOk(puts: set<(Key, Body)>, at: Place) {
    match at
    case Opening(k, path) => path == ObjectKey(k)
    case Touching(k, body) => (k, body) in puts
    case Hit(k, body) => (k, body) in puts
    case Sweeping(todo) => Listed(todo)
    case Unlisting(_, todo) => Listed(todo)
    case _ => true
  }

  ghost predicate Inv(s: State) {
    && Stored(s) && Pathed(s.rows) && Pathed(s.index)
    && forall p | 0 <= p < |s.places| :: PlaceOk(s.puts, s.places[p])
  }

  lemma PutKeeps(s: State, k: Key, body: Body)
    requires Stored(s)
    ensures Stored(s.(objects := s.objects[ObjectKey(k) := body], puts := s.puts + {(k, body)}))
  {
    forall j: Key | ObjectKey(j) in s.objects[ObjectKey(k) := body]
      ensures (j, s.objects[ObjectKey(k) := body][ObjectKey(j)]) in s.puts + {(k, body)}
    {
      if ObjectKey(j) == ObjectKey(k) {
        ObjectKeyInjective(j, k);
      }
    }
  }

  lemma EffectKeeps(s: State, at: Place)
    requires Inv(s) && PlaceOk(s.puts, at)
    ensures Inv(Effect(s, at)) && s.puts <= Effect(s, at).puts
  {
    if at.Putting? {
      PutKeeps(s, at.key, at.body);
    }
  }

  lemma NextKeeps(s: State, at: Place, ok: bool)
    requires Inv(s) && PlaceOk(s.puts, at)
    ensures PlaceOk(s.puts, Next(s, at, ok))
  {
  }

  lemma StepKeeps(s: State, e: Event)
    requires Inv(s) && Enabled(s, e)
    ensures Inv(Apply(s, e)) && s.puts <= Apply(s, e).puts
  {
    if e.Call? {
      var at := s.places[e.p];
      assert PlaceOk(s.puts, at);
      EffectKeeps(s, at);
      EffectPlaces(s, at);
      NextKeeps(s, at, e.ok);
    } else if e.Begin? && e.place.Sweeping? {
      forall i | 0 <= i < |e.place.todo|
        ensures e.place.todo[i].path == ObjectKey(e.place.todo[i].key)
      {
        assert e.place.todo[i] in e.place.todo;
      }
    }
  }

  lemma {:induction false} RunKeeps(run: seq<State>, events: seq<Event>, i: nat)
    requires IsRun(run, events) && i < |run|
    ensures Inv(run[i])
  {
    if i > 0 {
      RunKeeps(run, events, i - 1);
      StepKeeps(run[i - 1], events[i - 1]);
    }
  }

  /** A put of `body` for `k` took effect at step `j`. */
  predicate PutAt(s: State, e: Event, k: Key, body: Body) {
    e.Call? && e.applied && e.p < |s.places| && s.places[e.p] == Putting(k, body)
  }

  lemma {:induction false} PutsHappened(run: seq<State>, events: seq<Event>, i: nat, k: Key, body: Body)
    returns (j: nat)
    requires IsRun(run, events) && i < |run| && (k, body) in run[i].puts
    ensures j < i && PutAt(run[j], events[j], k, body)
  {
    if (k, body) in run[i - 1].puts {
      j := PutsHappened(run, events, i - 1, k, body);
    } else {
      j := i - 1;
    }
  }

  /** A hit on `k` returns a body that some store put for `k` before. */
  lemma HitWasStored(run: seq<State>, events: seq<Event>, i: nat, p: nat, k: Key, body: Body) returns (j: nat)
    requires IsRun(run, events) && i < |run| && p < |run[i].places| && run[i].places[p] == Hit(k, body)
    ensures j < i && PutAt(run[j], events[j], k, body)
  {
    RunKeeps(run, events, i);
    assert PlaceOk(run[i].puts, run[i].places[p]);
    j := PutsHappened(run, events, i, k, body);
  }

  // Without eviction the index is never stale.

  predicate NoEviction(events: seq<Event>) {
    forall e | e in events :: !(e.Begin? && e.place.Sweeping?)
  }

  predicate Backed(objects: map<string, Body>, at: Place) {
    match at
    case Recording(k) => ObjectKey(k) in objects
    case Indexing(k) => ObjectKey(k) in objects
    case Sweeping(_) => false
    case Unlisting(_, _) => false
    case _ => true
  }

  ghost predicate AllBacked(s: State) {
    && (forall k | k in s.index :: ObjectKey(k) in s.objects)
    && (forall k | k in s.rows :: ObjectKey(k) in s.objects)
    && (forall p | 0 <= p < |s.places| :: Backed(s.objects, s.places[p]))
  }

  lemma StepBacked(s: State, e: Event)
    requires AllBacked(s) && Enabled(s, e) && !(e.Begin? && e.place.Sweeping?)
    ensures AllBacked(Apply(s, e))
  {
    if e.Call? {
      assert Backed(s.objects, s.places[e.p]);
    }
  }

  /** In a run without eviction the index and the catalogue never point at a missing object. */
  lemma {:induction false} IndexNeverStale(run: seq<State>, events: seq<Event>, i: nat)
    requires IsRun(run, events) && i < |run| && NoEviction(events)
    ensures AllBacked(run[i])
  {
    if i > 0 {
      IndexNeverStale(run, events, i - 1);
      assert events[i - 1] in events;
      StepBacked(run[i - 1], events[i - 1]);
    }
  }

  // Eviction.

  /** At step `j` goroutine `p`'s sweep deleted the object of its next entry, `k`. */
  predicate DeletedAt(run: seq<State>, events: seq<Event>, j: nat, p: nat, k: Key)
    requires j < |events| && |run| == |events| + 1
  {
    && events[j] == Call(p, true, true)
    && p < |run[j].places| && run[j].places[p].Sweeping? && run[j].places[p].todo != []
    && run[j].places[p].todo[0] == Entry(k, ObjectKey(k))
    && ObjectKey(k) !in run[j + 1].objects
  }

  /** When a sweep is about to delete a row, it has just deleted the row's object: that was its last
      step. */
  lemma {:induction false} ObjectWentFirst(run: seq<State>, events: seq<Event>, i: nat, p: nat, k: Key) returns (j: nat)
    requires IsRun(run, events) && i < |run| && p < |run[i].places|
    requires run[i].places[p].Unlisting? && run[i].places[p].key == k
    ensures j < i && DeletedAt(run, events, j, p, k)
    ensures forall m | j < m <= i :: p < |run[m].places| && run[m].places[p] == run[i].places[p]
  {
    if p < |run[i - 1].places| && run[i - 1].places[p] == run[i].places[p] {
      j := ObjectWentFirst(run, events, i - 1, p, k);
    } else {
      RunKeeps(run, events, i - 1);
      assert PlaceOk(run[i - 1].puts, run[i - 1].places[p]);
      j := i - 1;
    }
  }

  /** Every row that disappears is deleted by a sweep that deleted its object first. */
  lemma RowOutlivesObject(run: seq<State>, events: seq<Event>, i: nat, k: Key) returns (j: nat)
    requires IsRun(run, events) && i < |events| && k in run[i].rows && k !in run[i + 1].rows
    ensures events[i].Call? && j < i && DeletedAt(run, events, j, events[i].p, k)
  {
    j := ObjectWentFirst(run, events, i, events[i].p, k);
  }

  // Objects that no row knows.

  /** Somebody other than `p` is about to record `k`. */
  ghost predicate RecordedByOther(s: State, p: nat, k: Key) {
    exists q | 0 <= q < |s.places| && q != p :: s.places[q] == Recording(k)
  }

  ghost predicate Recorded(s: State, k: Key) {
    k in s.rows || exists q | 0 <= q < |s.places| :: s.places[q] == Recording(k)
  }

  /** Every object has its row or will have it with the next step of its store. */
  ghost predicate NoOrphan(s: State) {
    forall k: Key | ObjectKey(k) in s.objects :: Recorded(s, k)
  }

  /** The steps that lose an object: a store that stops between its put and its record, a put that
      reports failure but happened, and a row deleted after its object was put again. */
  ghost predicate Orphans(s: State, e: Event)
    requires Enabled(s, e)
  {
    match e
    case Crash(p) =>
      var at := s.places[p];
      at.Recording? && ObjectKey(at.key) in s.objects && at.key !in s.rows && !RecordedByOther(s, p, at.key)
    case Call(p, ok, applied) =>
      var at := s.places[p];
      (match at
       case Putting(k, _) => applied && !ok && k !in s.rows && !RecordedByOther(s, p, k)
       case Recording(k) => !applied && ObjectKey(k) in s.objects && k !in s.rows && !RecordedByOther(s, p, k)
       case Unlisting(k, _) => applied && ObjectKey(k) in s.objects && !RecordedByOther(s, p, k)
       case _ => false)
    case _ => false
  }

  /** An object is lost at exactly those steps. */
  lemma OrphanExactly(s: State, e: Event)
    requires NoOrphan(s) && Enabled(s, e)
    ensures NoOrphan(Apply(s, e)) <==> !Orphans(s, e)
  {
    var s' := Apply(s, e);
    if Orphans(s, e) {
      var k := s.places[e.p].key;
      assert ObjectKey(k) in s'.objects && k !in s'.rows;
      forall q | 0 <= q < |s'.places|
        ensures s'.places[q] != Recording(k)
      {
        assert q != e.p ==> s'.places[q] == s.places[q];
      }
      assert !Recorded(s', k);
    } else {
      forall k: Key | ObjectKey(k) in s'.objects
        ensures Recorded(s', k)
      {
        StaysRecorded(s, e, k);
      }
    }
  }

  lemma StaysRecorded(s: State, e: Event, k: Key)
    requires NoOrphan(s) && Enabled(s, e) && !Orphans(s, e) && ObjectKey(k) in Apply(s, e).objects
    ensures Recorded(Apply(s, e), k)
  {
    var s' := Apply(s, e);
    if e.Call? && s.places[e.p].Putting? && ObjectKey(k) == ObjectKey(s.places[e.p].key) {
      ObjectKeyInjective(k, s.places[e.p].key);
    }
    if !e.Expire? && RecordedByOther(s, e.p, k) {
      var q :| 0 <= q < |s.places| && q != e.p && s.places[q] == Recording(k);
      assert s'.places[q] == Recording(k);
    } else if !e.Expire? && s'.places[e.p] == Recording(k) {
      assert Recorded(s', k);
    } else if ObjectKey(k) in s.objects {
      assert Recorded(s, k);
      if k !in s.rows {
        var q :| 0 <= q < |s.places| && s.places[q] == Recording(k);
        assert e.Expire? ==> s'.places[q] == Recording(k);
      }
    }
  }

  /** While no step is of that kind, every object stays known to the catalogue. */
  lemma {:induction false} NoOrphans(run: seq<State>, events: seq<Event>, i: nat)
    requires IsRun(run, events) && i < |run|
    requires forall j | 0 <= j < i :: !Orphans(run[j], events[j])
    ensures NoOrphan(run[i])
  {
    if i > 0 {
      NoOrphans(run, events, i - 1);
      OrphanExactly(run[i - 1], events[i - 1]);
    }
  }

  predicate Faultless(events: seq<Event>) {
    forall e | e in events :: !e.Crash? && (e.Call? ==> e.ok)
  }

  ghost predicate Reaches(run: seq<State>, events: seq<Event>, s: State) {
    IsRun(run, events) && Faultless(events) && run[|events|] == s
  }

  lemma Extend(run: seq<State>, events: seq<Event>, s: State, e: Event) returns (run': seq<State>, events': seq<Event>)
    requires Reaches(run, events, s) && Enabled(s, e) && !e.Crash? && (e.Call? ==> e.ok)
    ensures Reaches(run', events', Apply(s, e))
  {
    run', events' := run + [Apply(s, e)], events + [e];
  }

  /** A store that nothing disturbs. */
  function AfterStore(s: State, k: Key, body: Body): State {
    var path := ObjectKey(k);
    State(s.objects[path := body], s.rows[k := path], s.index[k := path], s.places, s.puts + {(k, body)})
  }

  lemma Store(run: seq<State>, events: seq<Event>, s: State, p: nat, k: Key, body: Body)
    returns (run': seq<State>, events': seq<Event>)
    requires Reaches(run, events, s) && p < |s.places| && s.places[p] == Idle
    ensures Reaches(run', events', AfterStore(s, k, body))
  {
    var call := Call(p, true, true);
    run', events' := Extend(run, events, s, Begin(p, Putting(k, body)));
    var s1 := Moved(s, p, Putting(k, body));
    run', events' := Extend(run', events', s1, call);
    var s2 := Moved(s, p, Recording(k)).(objects := s.objects[ObjectKey(k) := body], puts := s.puts + {(k, body)});
    run', events' := Extend(run', events', s2, call);
    var s3 := s2.(rows := s.rows[k := ObjectKey(k)], places := s.places[p := Indexing(k)]);
    run', events' := Extend(run', events', s3, call);
    assert AfterStore(s, k, body).places == s.places[p := Idle];
  }

  /** A sweep of one row, up to its first delete. */
  lemma SweepStarts(run: seq<State>, events: seq<Event>, s: State, p: nat, k: Key)
    returns (run': seq<State>, events': seq<Event>)
    requires Reaches(run, events, s) && p < |s.places| && s.places[p] == Idle
    requires k in s.rows && s.rows[k] == ObjectKey(k)
    ensures Reaches(run', events',
                    State(s.objects - {ObjectKey(k)}, s.rows, s.index, s.places[p := Unlisting(k, [])], s.puts))
  {
    var todo := [Entry(k, ObjectKey(k))];
    run', events' := Extend(run, events, s, Begin(p, Sweeping(todo)));
    run', events' := Extend(run', events', Moved(s, p, Sweeping(todo)), Call(p, true, true));
    assert todo[1..] == [];
    assert s.places[p := Sweeping(todo)][p := Unlisting(k, [])] == s.places[p := Unlisting(k, [])];
  }

  /** And its second delete. */
  lemma SweepEnds(run: seq<State>, events: seq<Event>, s: State, p: nat, k: Key)
    returns (run': seq<State>, events': seq<Event>)
    requires Reaches(run, events, s) && p < |s.places| && s.places[p] == Unlisting(k, [])
    ensures Reaches(run', events', State(s.objects, s.rows - {k}, s.index, s.places[p := Idle], s.puts))
  {
    run', events' := Extend(run, events, s, Call(p, true, true));
    run', events' := Extend(run', events', Moved(s, p, Sweeping([])).(rows := s.rows - {k}), Call(p, true, true));
    assert s.places[p := Sweeping([])][p := Idle] == s.places[p := Idle];
  }

  /** A store that falls between a sweep's two deletes loses its row although nothing failed: the
      object is there, the index serves it, and no later sweep will find it. */
  lemma SweepCanOrphan(k: Key, a: Body, b: Body) returns (run: seq<State>, events: seq<Event>, s: State)
    ensures Reaches(run, events, s)
    ensures ObjectKey(k) in s.objects && s.objects[ObjectKey(k)] == b && k in s.index && k !in s.rows
    ensures forall p | 0 <= p < |s.places| :: s.places[p].Idle?
  {
    var s0 := State(map[], map[], map[], [Idle, Idle], {});
    run, events := Store([s0], [], s0, 0, k, a);
    var s1 := AfterStore(s0, k, a);
    run, events := SweepStarts(run, events, s1, 1, k);
    var s2 := State(s1.objects - {ObjectKey(k)}, s1.rows, s1.index, s1.places[1 := Unlisting(k, [])], s1.puts);
    run, events := Store(run, events, s2, 0, k, b);
    var s3 := AfterStore(s2, k, b);
    run, events := SweepEnds(run, events, s3, 1, k);
    s := State(s3.objects, s3.rows - {k}, s3.index, s3.places[1 := Idle], s3.puts);
  }
}
