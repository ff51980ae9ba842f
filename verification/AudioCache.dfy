/** The cache manager and the eviction sweep as objects that update the index, the object store and
    the catalogue in place. A fault makes a call fail without effect. */
module AudioCache {
  import opened CacheProtocol

  datatype Result = Found(body: Body) | Missed | Failed

  /** The object store after a sweep's first `n` entries. */
  function Swept(objects: map<string, Body>, entries: seq<Entry>, n: nat, faults: nat -> bool): map<string, Body>
    requires n <= |entries|
  {
    if n == 0 then objects
    else
      var before := Swept(objects, entries, n - 1, faults);
      if faults(n - 1) then before else before - {entries[n - 1].path}
  }

  /** The catalogue after them. */
  function Unlisted(rows: map<Key, string>, entries: seq<Entry>, n: nat, faults: nat -> bool): map<Key, string>
    requires n <= |entries|
  {
    if n == 0 then rows
    else
      var before := Unlisted(rows, entries, n - 1, faults);
      if faults(n - 1) then before else before - {entries[n - 1].key}
  }

  class Manager {
    var objects: map<string, Body>
    var rows: map<Key, string>
    var index: map<Key, string>

    ghost predicate Valid()
      reads this
    {
      Pathed(rows) && Pathed(index)
    }

    constructor ()
      ensures Valid() && objects == map[] && rows == map[] && index == map[]
    {
      objects, rows, index := map[], map[], map[];
    }

    /** Object, catalogue, index, in this order: whatever fails, the index is updated only if the
        object and its row are there. */
    method Store(k: Key, body: Body, putFails: bool, recordFails: bool, indexFails: bool) returns (ok: bool)
      requires Valid()
      modifies this
      ensures Valid() && ok == !(putFails || recordFails || indexFails)
      ensures objects == if putFails then old(objects) else old(objects)[ObjectKey(k) := body]
      ensures rows == if putFails || recordFails then old(rows) else old(rows)[k := ObjectKey(k)]
      ensures index == if ok then old(index)[k := ObjectKey(k)] else old(index)
    {
      if putFails {
        return false;
      }
      objects := objects[ObjectKey(k) := body];
      if recordFails {
        return false;
      }
      rows := rows[k := ObjectKey(k)];
      if indexFails {
        return false;
      }
      index := index[k := ObjectKey(k)];
      return true;
    }

    /** The object of `k` exactly when it is indexed and there; a stale index entry is dropped. */
    method Lookup(k: Key, askFails: bool, openFails: bool, dropFails: bool, touchFails: bool) returns (r: Result)
      requires Valid()
      modifies this`index
      ensures Valid()
      ensures r.Found? <==> !askFails && !openFails && !touchFails && k in old(index) && ObjectKey(k) in objects
      ensures r.Found? ==> r.body == objects[ObjectKey(k)]
      ensures r.Missed? <==> !askFails && (k !in old(index) || ((openFails || ObjectKey(k) !in objects) && !dropFails))
      ensures r.Missed? ==> k !in index
      ensures index == old(index) || (index == old(index) - {k} && (openFails || ObjectKey(k) !in objects))
    {
      if askFails {
        return Failed;
      }
      if k !in index {
        return Missed;
      }
      var path := index[k];
      if openFails || path !in objects {
        if dropFails {
          return Failed;
        }
        index := index - {k};
        return Missed;
      }
      if touchFails {
        return Failed;
      }
      return Found(objects[path]);
    }

    /** Deletes the objects of the listed entries and then their rows. An object that is not deleted
        keeps its row; a row that is not deleted ends the sweep. */
    method EvictCache(entries: seq<Entry>, deleteFails: nat -> bool, unlistFails: nat -> bool)
      returns (ok: bool, n: nat)
      requires Valid()
      modifies this`objects, this`rows
      ensures Valid() && n <= |entries| && ok == (n == |entries|)
      ensures rows == Unlisted(old(rows), entries, n, deleteFails)
      ensures ok ==> objects == Swept(old(objects), entries, n, deleteFails)
      ensures !ok ==> !deleteFails(n) && unlistFails(n) && objects == Swept(old(objects), entries, n + 1, deleteFails)
      ensures forall i | 0 <= i < n :: deleteFails(i) || !unlistFails(i)
    {
      n := 0;
      while n < |entries|
        invariant n <= |entries|
        invariant rows == Unlisted(old(rows), entries, n, deleteFails)
        invariant objects == Swept(old(objects), entries, n, deleteFails)
        invariant forall i | 0 <= i < n :: deleteFails(i) || !unlistFails(i)
      {
        if !deleteFails(n) {
          objects := objects - {entries[n].path};
          if unlistFails(n) {
            UnlistedPathed(old(rows), entries, n, deleteFails);
            return false, n;
          }
          rows := rows - {entries[n].key};
        }
        n := n + 1;
      }
      ok := true;
      UnlistedPathed(old(rows), entries, n, deleteFails);
    }
  }

  lemma {:induction false} UnlistedPathed(rows: map<Key, string>, entries: seq<Entry>, n: nat, faults: nat -> bool)
    requires n <= |entries| && Pathed(rows)
    ensures Pathed(Unlisted(rows, entries, n, faults))
  {
    if n > 0 {
      UnlistedPathed(rows, entries, n - 1, faults);
    }
  }

  /** A row that a sweep deleted has no object left. */
  lemma {:induction false} SweptRowsHaveNoObject(
    objects: map<string, Body>, rows: map<Key, string>, entries: seq<Entry>, n: nat, faults: nat -> bool, k: Key)
    requires n <= |entries| && Listed(entries) && k in rows && k !in Unlisted(rows, entries, n, faults)
    ensures ObjectKey(k) !in Swept(objects, entries, n, faults)
  {
    if k !in Unlisted(rows, entries, n - 1, faults) {
      SweptRowsHaveNoObject(objects, rows, entries, n - 1, faults, k);
    }
  }

  /** A sweep touches nothing that it did not list. */
  lemma {:induction false} SweepSparesOthers(
    objects: map<string, Body>, rows: map<Key, string>, entries: seq<Entry>, n: nat, faults: nat -> bool, k: Key)
    requires n <= |entries| && Listed(entries) && forall i | 0 <= i < n && !faults(i) :: entries[i].key != k
    ensures k in rows <==> k in Unlisted(rows, entries, n, faults)
    ensures ObjectKey(k) in objects <==> ObjectKey(k) in Swept(objects, entries, n, faults)
  {
    if n > 0 {
      SweepSparesOthers(objects, rows, entries, n - 1, faults, k);
      if ObjectKey(k) == entries[n - 1].path {
        ObjectKeyInjective(k, entries[n - 1].key);
      }
    }
  }
}
