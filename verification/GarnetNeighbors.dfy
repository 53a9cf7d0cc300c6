/**
 Neighbour lists in the Garnet store: fixed-size records whose last cell is the length, edited in
 place inside atomic read-modify-writes, and the cached list of the start point.
 */
module GarnetNeighbors {
  import opened Collections
  import opened Adjacency

  /** The list a record holds, as an append takes it. */
  function ListOf(record: seq<nat>, maxDegree: nat): seq<nat>
    requires |record| == maxDegree + 1
  {
    record[..Min(record[maxDegree], maxDegree)]
  }

  /** The list a record holds, as a read takes it: the length is not held against the degree. */
  function ReadOf(record: seq<nat>, maxDegree: nat): seq<nat>
    requires |record| == maxDegree + 1
  {
    record[..Min(record[maxDegree], maxDegree + 1)]
  }

  /** What is read after a list was set. One ID too many, and the length takes the place of the
      last ID and is itself read as an ID. */
  function ReadAfterSet(neighbors: seq<nat>, maxDegree: nat): seq<nat>
    requires |neighbors| <= maxDegree + 1
  {
    if |neighbors| <= maxDegree then neighbors else neighbors[..maxDegree] + [maxDegree + 1]
  }

  /** A list can be read otherwise than it was set: two IDs at maximum degree one. */
  lemma LengthReadAsNeighbor()
    ensures ReadAfterSet([7, 8], 1) == [7, 2] != [7, 8]
  {
    assert [7, 8][..1] == [7];
  }

  /** The append loop returns from inside, before it gets to refresh the cache: some ID was left
      to look at when the list was full. */
  predicate StopsEarly(list: seq<nat>, more: seq<nat>, maxDegree: nat) {
    more != [] && |AppendUnique(list, more[..|more| - 1], maxDegree)| >= maxDegree
  }

  /** The body of the append's read-modify-write: edits the record in place. */
  method AppendInPlace(data: array<nat>, maxDegree: nat, more: seq<nat>) returns (stopped: bool)
    requires data.Length == maxDegree + 1
    modifies data
    ensures ListOf(data[..], maxDegree) == AppendUnique(ListOf(old(data[..]), maxDegree), more, maxDegree)
    ensures if old(data[maxDegree]) <= maxDegree then data[maxDegree] <= maxDegree else data[..] == old(data[..])
    ensures stopped <==> StopsEarly(ListOf(old(data[..]), maxDegree), more, maxDegree)
  {
    var len := if data[maxDegree] <= maxDegree then data[maxDegree] else maxDegree;
    ghost var list := data[..len];
    for k := 0 to |more|
      invariant 0 <= len <= maxDegree
      invariant data[..len] == AppendUnique(list, more[..k], maxDegree)
      invariant ListOf(data[..], maxDegree) == data[..len]
      invariant if old(data[maxDegree]) <= maxDegree then data[maxDegree] <= maxDegree else data[..] == old(data[..])
      invariant old(data[maxDegree]) > maxDegree ==> len == maxDegree
      invariant k > 0 ==> |AppendUnique(list, more[..k - 1], maxDegree)| < maxDegree
    {
      assert more[..k] + more[k..] == more;
      assert more[..k + 1] == more[..k] + [more[k]];
      AppendTwice(list, more[..k], more[k..], maxDegree);
      AppendTwice(list, more[..k], [more[k]], maxDegree);
      if len == maxDegree {
        Monotone(list, more[..k], more[k..|more| - 1], maxDegree);
        assert more[..k] + more[k..|more| - 1] == more[..|more| - 1];
        return true;
      }
      AppendOne(data[..len], more[k], maxDegree);
      if more[k] !in data[..len] {
        data[len] := more[k];
        len := len + 1;
        data[maxDegree] := len;
      }
    }
    assert more[..|more|] == more;
    stopped := false;
  }

  lemma AppendOne(list: seq<nat>, x: nat, maxDegree: nat)
    requires |list| < maxDegree
    ensures AppendUnique(list, [x], maxDegree) == Push(list, x)
  {
    assert [x][1..] == [];
  }

  lemma Monotone(list: seq<nat>, a: seq<nat>, b: seq<nat>, maxDegree: nat)
    ensures |AppendUnique(list, a, maxDegree)| <= |AppendUnique(list, a + b, maxDegree)|
  {
    AppendTwice(list, a, b, maxDegree);
    AppendExtends(AppendUnique(list, a, maxDegree), b, maxDegree);
  }

  /** The start point's cached list against its stored one. */
  ghost predicate Coherent(stored: seq<nat>, cached: seq<nat>, maxDegree: nat) {
    && cached <= stored
    && |stored| <= maxDegree
    && (|stored| < maxDegree ==> cached == stored)
  }

  /** The cache after an append to the start point. */
  function CacheAfter(stored: seq<nat>, cached: seq<nat>, more: seq<nat>, maxDegree: nat): seq<nat> {
    if StopsEarly(stored, more, maxDegree) then cached else AppendUnique(stored, more, maxDegree)
  }

  /** An append keeps the cache a prefix, and equal while the list is not full. */
  lemma AppendCoherent(stored: seq<nat>, cached: seq<nat>, more: seq<nat>, maxDegree: nat)
    requires Coherent(stored, cached, maxDegree)
    ensures Coherent(AppendUnique(stored, more, maxDegree), CacheAfter(stored, cached, more, maxDegree), maxDegree)
  {
    AppendExtends(stored, more, maxDegree);
    if StopsEarly(stored, more, maxDegree) {
      var last := |more| - 1;
      assert more[..last] + more[last..] == more;
      Monotone(stored, more[..last], more[last..], maxDegree);
    }
  }

  /** An append to a start point whose cache is exact leaves it exact if and only if the append
      does not stop early, or the list was full before. */
  lemma CacheStaysExact(stored: seq<nat>, more: seq<nat>, maxDegree: nat)
    requires |stored| <= maxDegree
    ensures CacheAfter(stored, stored, more, maxDegree) == AppendUnique(stored, more, maxDegree) <==>
            !StopsEarly(stored, more, maxDegree) || |stored| == maxDegree
  {
    AppendExtends(stored, more, maxDegree);
    if StopsEarly(stored, more, maxDegree) && |stored| < maxDegree {
      var last := |more| - 1;
      assert more[..last] + more[last..] == more;
      Monotone(stored, more[..last], more[last..], maxDegree);
    }
  }

  /** An exact cache can go stale: two IDs appended to an empty list of maximum degree one. */
  lemma CacheGoesStale()
    ensures CacheAfter([], [], [7, 8], 1) == []
    ensures AppendUnique([], [7, 8], 1) == [7]
  {
    assert [7, 8][..1] == [7] && [7][1..] == [] && [7, 8][1..] == [8];
    assert AppendUnique([7], [], 1) == [7];
    assert AppendUnique([], [7], 1) == AppendUnique([7], [], 1);
  }

  /** The start point's cached list against its record. A record with one ID too many is full for
      an append, and the cache then has its IDs up to the degree and perhaps one more. */
  ghost predicate CacheOk(record: seq<nat>, cached: seq<nat>, maxDegree: nat)
    requires |record| == maxDegree + 1
  {
    if record[maxDegree] <= maxDegree then Coherent(ListOf(record, maxDegree), cached, maxDegree)
    else ListOf(record, maxDegree) <= cached && |cached| <= maxDegree + 1
  }

  class NeighborLists {
    const maxDegree: nat
    var records: map<nat, seq<nat>>
    var cache: Option<seq<nat>>

    ghost predicate Valid()
      reads this
    {
      && (forall i :: i in records ==> |records[i]| == maxDegree + 1)
      && (cache.Some? ==> 0 in records && CacheOk(records[0], cache.value, maxDegree))
    }

    /** The stored list of a vertex, as an append takes it; without a record it is empty. */
    ghost function Stored(iid: nat): seq<nat>
      requires iid in records ==> |records[iid]| == maxDegree + 1
      reads this
    {
      if iid in records then ListOf(records[iid], maxDegree) else []
    }

    /** The stored list of a vertex, as a read takes it. */
    ghost function Readable(iid: nat): seq<nat>
      requires iid in records ==> |records[iid]| == maxDegree + 1
      reads this
    {
      if iid in records then ReadOf(records[iid], maxDegree) else []
    }

    constructor (maxDegree: nat)
      ensures Valid() && this.maxDegree == maxDegree && records == map[] && cache == None
    {
      this.maxDegree := maxDegree;
      records := map[];
      cache := None;
    }

    /** Creates the start point's empty list, or loads the one that is stored. */
    method SetStartPoint(vectorExists: bool) returns (ok: bool)
      requires Valid()
      modifies this`records, this`cache
      ensures Valid()
      ensures ok <==> !vectorExists || 0 in old(records)
      ensures ok ==> cache == Some(Readable(0)) && Readable(0) == if vectorExists then old(Readable(0)) else []
      ensures forall i :: i != 0 ==> (i in records <==> i in old(records)) && Readable(i) == old(Readable(i))
    {
      if vectorExists {
        if 0 !in records {
          return false;
        }
        cache := Some(records[0][..Min(records[0][maxDegree], maxDegree + 1)]);
      } else {
        records := records[0 := seq(maxDegree + 1, _ => 0)];
        cache := Some([]);
      }
      ok := true;
    }

    /** Replaces a vertex's list, using a scratch buffer with leftovers of earlier calls in it. The
        buffer has one cell more than the degree; a list that does not fit it panics. */
    method SetNeighbors(iid: nat, neighbors: seq<nat>, scratch: array<nat>) returns (panicked: bool)
      requires Valid() && scratch.Length == maxDegree + 1
      modifies this`records, this`cache, scratch
      ensures Valid()
      ensures panicked <==> |neighbors| > maxDegree + 1
      ensures panicked ==> records == old(records) && cache == old(cache)
      ensures !panicked ==> Readable(iid) == ReadAfterSet(neighbors, maxDegree)
      ensures !panicked ==> (Stored(iid) == neighbors <==> |neighbors| <= maxDegree)
      ensures !panicked ==>
                (Readable(iid) == neighbors <==> |neighbors| <= maxDegree || neighbors[maxDegree] == maxDegree + 1)
      ensures forall i :: i != iid ==> Stored(i) == old(Stored(i)) && Readable(i) == old(Readable(i))
      ensures !panicked ==> cache == if iid == 0 then Some(neighbors) else old(cache)
    {
      if |neighbors| > maxDegree + 1 {
        return true;
      }
      for i := 0 to |neighbors|
        invariant scratch[..i] == neighbors[..i]
        invariant unchanged(this)
      {
        scratch[i] := neighbors[i];
      }
      assert scratch[..|neighbors|] == neighbors;
      scratch[maxDegree] := |neighbors|;
      SetReads(neighbors, scratch[..], maxDegree);
      records := records[iid := scratch[..]];
      if iid == 0 {
        cache := Some(neighbors);
      }
      panicked := false;
    }

    /** Appends to a vertex's list, in one atomic read-modify-write. */
    method AppendVector(iid: nat, neighbors: seq<nat>)
      requires Valid()
      modifies this`records, this`cache
      ensures Valid()
      ensures Stored(iid) == AppendUnique(old(Stored(iid)), neighbors, maxDegree)
      ensures Readable(iid) == if |old(Readable(iid))| <= maxDegree then Stored(iid) else old(Readable(iid))
      ensures forall i :: i != iid ==> Stored(i) == old(Stored(i)) && Readable(i) == old(Readable(i))
      ensures cache == if iid == 0 && old(cache).Some?
                       then Some(CacheAfter(old(Stored(iid)), old(cache).value, neighbors, maxDegree)) else old(cache)
    {
      var was := if iid in records then records[iid] else seq(maxDegree + 1, _ => 0);
      var data := new nat[maxDegree + 1](i requires 0 <= i < maxDegree + 1 => was[i]);
      assert data[..] == was;
      var stopped := AppendInPlace(data, maxDegree, neighbors);
      AppendReads(was, data[..], neighbors, maxDegree);
      if iid == 0 && cache.Some? {
        AppendCacheOk(was, cache.value, neighbors, data[..], maxDegree);
      }
      hide ListOf, ReadOf, StopsEarly, CacheOk, AppendUnique;
      records := records[iid := data[..]];
      if !stopped && iid == 0 && cache.Some? {
        cache := Some(ListOf(data[..], maxDegree));
      }
    }

    /** Reads a vertex's list; the start point's comes from the cache. */
    method GetNeighbors(iid: nat) returns (r: Option<seq<nat>>)
      requires Valid()
      ensures iid != 0 || cache.None? ==> r == if iid in records then Some(Readable(iid)) else None
      ensures iid == 0 && cache.Some? ==> r == cache
      ensures iid == 0 && cache.Some? && |Readable(0)| <= maxDegree ==>
                r.value <= Readable(0) && (|Readable(0)| < maxDegree ==> r.value == Readable(0))
      ensures iid == 0 && cache.Some? && |Readable(0)| > maxDegree ==> Stored(0) <= r.value
    {
      if iid == 0 && cache.Some? {
        return cache;
      }
      if iid !in records {
        return None;
      }
      r := Some(records[iid][..Min(records[iid][maxDegree], maxDegree + 1)]);
    }
  }

  lemma SetReads(neighbors: seq<nat>, record: seq<nat>, maxDegree: nat)
    requires |neighbors| <= maxDegree + 1 == |record| && record[maxDegree] == |neighbors|
    requires forall i :: 0 <= i < |neighbors| && i < maxDegree ==> record[i] == neighbors[i]
    ensures ReadOf(record, maxDegree) == ReadAfterSet(neighbors, maxDegree)
    ensures ListOf(record, maxDegree) == neighbors[..Min(|neighbors|, maxDegree)]
    ensures CacheOk(record, neighbors, maxDegree)
    ensures ReadAfterSet(neighbors, maxDegree) == neighbors <==>
              |neighbors| <= maxDegree || neighbors[maxDegree] == maxDegree + 1
  {
    assert neighbors[..|neighbors|] == neighbors;
    if |neighbors| == maxDegree + 1 {
      assert neighbors == neighbors[..maxDegree] + [neighbors[maxDegree]];
    }
  }

  lemma AppendReads(was: seq<nat>, now: seq<nat>, more: seq<nat>, maxDegree: nat)
    requires |was| == |now| == maxDegree + 1
    requires if was[maxDegree] <= maxDegree then now[maxDegree] <= maxDegree else now == was
    ensures |ReadOf(was, maxDegree)| <= maxDegree <==> was[maxDegree] <= maxDegree
    ensures ReadOf(now, maxDegree) ==
            if was[maxDegree] <= maxDegree then ListOf(now, maxDegree) else ReadOf(was, maxDegree)
  {
  }

  lemma AppendCacheOk(was: seq<nat>, cached: seq<nat>, more: seq<nat>, now: seq<nat>, maxDegree: nat)
    requires |was| == |now| == maxDegree + 1 && CacheOk(was, cached, maxDegree)
    requires ListOf(now, maxDegree) == AppendUnique(ListOf(was, maxDegree), more, maxDegree)
    requires if was[maxDegree] <= maxDegree then now[maxDegree] <= maxDegree else now == was
    ensures CacheOk(now, CacheAfter(ListOf(was, maxDegree), cached, more, maxDegree), maxDegree)
  {
    if was[maxDegree] <= maxDegree {
      AppendCoherent(ListOf(was, maxDegree), cached, more, maxDegree);
    }
  }
}
