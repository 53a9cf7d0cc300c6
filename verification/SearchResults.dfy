/**
 The output buffers of a search: external IDs, each behind a four-byte length, packed into one
 byte buffer, and their distances in another.
 */
module SearchResults {
  import opened Collections
  import opened Bytes

  type Id = id: seq<Byte> | |id| < 0x1_0000_0000
    witness []

  datatype Item = Item(id: Id, distance: real)

  datatype BufferState = Available | Full

  /** One ID as it is written. */
  function EncodeId(id: Id): seq<Byte> {
    FromU32(|id|) + id
  }

  function Encode(items: seq<Item>): seq<Byte> {
    if items == [] then [] else Encode(items[..|items| - 1]) + EncodeId(items[|items| - 1].id)
  }

  /** Reads `count` length-prefixed IDs, as a client does; all bytes must be used up. */
  function Parse(bytes: seq<Byte>, count: nat): Option<seq<seq<Byte>>> {
    if count == 0 then (if bytes == [] then Some([]) else None)
    else if |bytes| < 4 || |bytes| < 4 + ToU32(bytes[..4]) then None
    else
      var n := ToU32(bytes[..4]);
      var rest := Parse(bytes[4 + n..], count - 1);
      if rest.None? then None else Some([bytes[4..4 + n]] + rest.value)
  }

  function Ids(items: seq<Item>): seq<seq<Byte>> {
    seq(|items|, i requires 0 <= i < |items| => items[i].id)
  }

  lemma {:induction false} EncodeSplit(items: seq<Item>)
    requires items != []
    ensures Encode(items) == EncodeId(items[0].id) + Encode(items[1..])
  {
    var last := |items| - 1;
    if last > 0 {
      EncodeSplit(items[..last]);
      assert items[..last][1..] == items[1..][..last - 1];
      assert items[1..][last - 1] == items[last];
    } else {
      assert items[..0] == [] && items[1..] == [];
    }
  }

  /** A client reads back exactly the IDs that were written. */
  lemma {:induction false} ParseRoundTrip(items: seq<Item>)
    ensures Parse(Encode(items), |items|) == Some(Ids(items))
  {
    if items != [] {
      EncodeSplit(items);
      ParseRoundTrip(items[1..]);
      assert Ids(items) == [items[0].id] + Ids(items[1..]);
      hide Encode, EncodeId, Parse;
      ParseOne(items[0].id, Encode(items[1..]), |items| - 1);
    } else {
      assert Ids(items) == [];
    }
  }

  /** At `at` there is the length of the ID in four bytes, least first, and then the ID. */
  ghost predicate IsEntry(bytes: seq<Byte>, at: nat, id: Id) {
    && at + 4 + |id| <= |bytes|
    && |id| == (bytes[at] as nat) + 256 * (bytes[at + 1] as nat) + 65536 * (bytes[at + 2] as nat)
               + 16777216 * (bytes[at + 3] as nat)
    && bytes[at + 4..at + 4 + |id|] == id
  }

  lemma EntryMade(before: seq<Byte>, id: Id)
    ensures IsEntry(before + EncodeId(id), |before|, id)
  {
    BytesWeigh(|id|);
    hide FromU32;
    var bytes := before + EncodeId(id);
    assert bytes[|before| + 4..] == id;
  }

  lemma EntryStays(bytes: seq<Byte>, at: nat, id: Id, more: seq<Byte>)
    requires IsEntry(bytes, at, id)
    ensures IsEntry(bytes + more, at, id)
  {
    assert (bytes + more)[at + 4..at + 4 + |id|] == bytes[at + 4..at + 4 + |id|];
  }

  /** Every result is an entry, right behind those before it. */
  lemma {:induction false} EntryAt(items: seq<Item>, j: nat)
    requires j < |items|
    ensures IsEntry(Encode(items), |Encode(items[..j])|, items[j].id)
    ensures |Encode(items[..j + 1])| == |Encode(items[..j])| + 4 + |items[j].id|
  {
    hide IsEntry, EncodeId;
    var last := |items| - 1;
    EncodeOneMore(items[..j], items[j]);
    assert items[..j + 1] == items[..j] + [items[j]];
    if j < last {
      EntryAt(items[..last], j);
      assert items[..last][..j] == items[..j];
      EntryStays(Encode(items[..last]), |Encode(items[..j])|, items[j].id, EncodeId(items[last].id));
    } else {
      EntryMade(Encode(items[..j]), items[j].id);
    }
  }

  /** Parsing takes one entry off the front. */
  lemma ParseOne(id: Id, rest: seq<Byte>, count: nat)
    requires Parse(rest, count).Some?
    ensures Parse(EncodeId(id) + rest, count + 1) == Some([id] + Parse(rest, count).value)
  {
    U32RoundTrip(|id|);
    hide FromU32, ToU32;
    var bytes := EncodeId(id) + rest;
    assert bytes[..4] == FromU32(|id|);
    assert bytes[4..4 + |id|] == id;
    assert bytes[4 + |id|..] == rest;
  }

  /** The items fit both buffers. */
  predicate Fits(items: seq<Item>, idBytes: nat, slots: nat) {
    |items| <= slots && |Encode(items)| <= idBytes
  }

  class Buffers {
    const ids: array<Byte>
    const dists: array<real>
    var index: nat
    var idIndex: nat
    /** What has been pushed so far. */
    ghost var items: seq<Item>

    ghost predicate Valid()
      reads this, ids, dists
    {
      && index == |items| <= dists.Length
      && idIndex <= ids.Length
      && ids[..idIndex] == Encode(items)
      && forall i :: 0 <= i < |items| ==> dists[i] == items[i].distance
    }

    constructor (ids: array<Byte>, dists: array<real>)
      ensures Valid() && items == [] && this.ids == ids && this.dists == dists
    {
      this.ids, this.dists := ids, dists;
      index, idIndex, items := 0, 0, [];
    }

    /** Adds one result if it fits both buffers; writes nothing otherwise. */
    method Push(item: Item) returns (state: BufferState)
      requires Valid()
      modifies this, ids, dists
      ensures Valid() && old(idIndex) <= idIndex
      ensures items == if old(Fits(items + [item], ids.Length, dists.Length)) then old(items) + [item] else old(items)
      ensures state == Available <==> items != old(items) && index < dists.Length && idIndex < ids.Length
      ensures ids[idIndex..] == old(ids[..])[idIndex..]
      ensures dists[index..] == old(dists[..])[index..]
    {
      EncodeOneMore(items, item);
      hide Encode, EncodeId;
      var id := item.id;
      if index >= dists.Length || idIndex + 4 + |id| > ids.Length {
        return Full;
      }
      WriteEntry(ids, idIndex, id);
      dists[index] := item.distance;
      index := index + 1;
      idIndex := idIndex + 4 + |id|;
      items := items + [item];
      state := if index >= dists.Length || idIndex >= ids.Length then Full else Available;
    }

    /** Adds results until the buffers say they are full: the longest prefix that fits. */
    method Extend(more: seq<Item>) returns (count: nat)
      requires Valid()
      modifies this, ids, dists
      ensures Valid()
      ensures count <= |more| && items == old(items) + more[..count]
      ensures count < |more| ==> old(!Fits(items + more[..count + 1], ids.Length, dists.Length))
      ensures ids[idIndex..] == old(ids[..])[idIndex..]
      ensures dists[index..] == old(dists[..])[index..]
    {
      hide Encode;
      var initial := index;
      var i := 0;
      while i < |more|
        invariant 0 <= i <= |more| && Valid()
        invariant items == old(items) + more[..i]
        invariant ids[idIndex..] == old(ids[..])[idIndex..]
        invariant dists[index..] == old(dists[..])[index..]
      {
        assert old(items) + more[..i + 1] == items + [more[i]];
        ghost var sofar := items;
        var state := Push(more[i]);
        if state.Full? {
          if items != sofar && i + 1 < |more| {
            assert old(items) + more[..i + 2] == items + [more[i + 1]];
            EncodeOneMore(items, more[i + 1]);
          }
          break;
        }
        i := i + 1;
      }
      count := index - initial;
    }
  }

  lemma EncodeOneMore(items: seq<Item>, item: Item)
    ensures Encode(items + [item]) == Encode(items) + EncodeId(item.id)
    ensures |EncodeId(item.id)| == 4 + |item.id|
  {
    assert (items + [item])[..|items|] == items;
  }

  /** Writes a length prefix and the ID behind it. */
  method WriteEntry(a: array<Byte>, at: nat, id: Id)
    requires at + 4 + |id| <= a.Length
    modifies a
    ensures a[..at] == old(a[..at])
    ensures a[at..at + 4 + |id|] == EncodeId(id)
    ensures a[at + 4 + |id|..] == old(a[at + 4 + |id|..])
  {
    WriteAt(a, at, FromU32(|id|));
    assert a[at + 4 + |id|..] == a[at + 4..][|id|..] == old(a[at + 4 + |id|..]);
    WriteAt(a, at + 4, id);
    assert a[at..at + 4 + |id|] == a[..at + 4][at..] + a[at + 4..at + 4 + |id|];
  }

  method WriteAt(a: array<Byte>, at: nat, bytes: seq<Byte>)
    requires at + |bytes| <= a.Length
    modifies a
    ensures a[..at] == old(a[..at])
    ensures a[at..at + |bytes|] == bytes
    ensures a[at + |bytes|..] == old(a[at + |bytes|..])
  {
    ghost var was := a[..];
    assert Overlay(was, at, []) == was;
    for i := 0 to |bytes|
      invariant a[..] == Overlay(was, at, bytes[..i])
    {
      OverlayNext(was, at, bytes, i);
      a[at + i] := bytes[i];
    }
    assert bytes[..|bytes|] == bytes;
  }

  /** `s` with `bytes` written at `at`. */
  ghost function Overlay(s: seq<Byte>, at: nat, bytes: seq<Byte>): seq<Byte>
    requires at + |bytes| <= |s|
  {
    s[..at] + bytes + s[at + |bytes|..]
  }

  lemma OverlayNext(s: seq<Byte>, at: nat, bytes: seq<Byte>, i: nat)
    requires at + |bytes| <= |s| && i < |bytes|
    ensures Overlay(s, at, bytes[..i])[at + i := bytes[i]] == Overlay(s, at, bytes[..i + 1])
  {
  }
}
