/**
 Neighbour lists in the bf-tree: each list is a padded record of `maxDegree + 1` ID-sized cells
 whose last cell packs the length, serialised through a buffer that is reused between calls.
 */
module BfTreeNeighbors {
  import opened Adjacency
  import opened Bytes

  type Cell = seq<Byte>

  datatype Result<+T> = Ok(value: T) | Err

  /** A tree entry; a key that was never inserted has none. */
  datatype Entry = Deleted | Found(cells: seq<Cell>)

  // ---- The length cell ----

  /** A length as a cell of `width` bytes: four little-endian bytes, then zeros. */
  function LenToCell(len: nat, width: nat): (cell: Cell)
    requires len < U32_LIMIT && width >= 4
    ensures |cell| == width
  {
    FromU32(len) + seq(width - 4, _ => 0)
  }

  function CellToLen(cell: Cell): nat
    requires |cell| >= 4
  {
    ToU32(cell[..4])
  }

  /** The length survives the round trip through a cell of any width. */
  lemma LenRoundTrip(len: nat, width: nat)
    requires len < U32_LIMIT && width >= 4
    ensures CellToLen(LenToCell(len, width)) == len
    ensures forall i :: 4 <= i < width ==> LenToCell(len, width)[i] == 0
  {
    assert LenToCell(len, width)[..4] == FromU32(len);
    U32RoundTrip(len);
  }

  // ---- Reading ----

  /** What reading a vertex gives: nothing stored is an empty list, a deleted or malformed record
      is an error. */
  function Read(tree: map<Cell, Entry>, id: Cell, maxDegree: nat): Result<seq<Cell>> {
    if id !in tree then Ok([])
    else match tree[id]
      case Deleted => Err
      case Found(cells) =>
        if cells == [] then Ok([])
        else if |cells| != maxDegree + 1 || |cells[maxDegree]| < 4 || CellToLen(cells[maxDegree]) > maxDegree then Err
        else Ok(cells[..CellToLen(cells[maxDegree])])
  }

  /** A record of `maxDegree + 1` cells that starts with the list and ends with its length. */
  ghost predicate Encodes(cells: seq<Cell>, list: seq<Cell>, maxDegree: nat)
    requires maxDegree < U32_LIMIT
  {
    && |cells| == maxDegree + 1 && |list| <= maxDegree && list <= cells
    && FromU32(|list|) <= cells[maxDegree]
  }

  ghost predicate Represents(tree: map<Cell, Entry>, id: Cell, list: seq<Cell>, maxDegree: nat)
    requires maxDegree < U32_LIMIT
  {
    if id !in tree || tree[id] == Found([]) then list == []
    else tree[id].Found? && Encodes(tree[id].cells, list, maxDegree)
  }

  /** The length that ends a record tells where its list ends. */
  lemma EncodesExact(cells: seq<Cell>, list: seq<Cell>, maxDegree: nat)
    requires maxDegree < U32_LIMIT && |cells| == maxDegree + 1
    ensures Encodes(cells, list, maxDegree) <==>
              |cells[maxDegree]| >= 4 && CellToLen(cells[maxDegree]) <= maxDegree
              && list == cells[..CellToLen(cells[maxDegree])]
  {
    hide FromU32, ToU32;
    var last := cells[maxDegree];
    if |last| >= 4 {
      BytesRoundTrip(last[..4]);
      if CellToLen(last) <= maxDegree && list == cells[..CellToLen(last)] {
        assert FromU32(|list|) == last[..4];
      }
    }
    if Encodes(cells, list, maxDegree) {
      U32RoundTrip(|list|);
      assert last[..4] == FromU32(|list|);
      assert CellToLen(last) == |list|;
      assert list == cells[..|list|];
    }
  }

  /** A read gives the list the entry represents, and fails exactly if it represents none. */
  lemma ReadExact(tree: map<Cell, Entry>, id: Cell, maxDegree: nat, list: seq<Cell>)
    requires maxDegree < U32_LIMIT
    ensures Read(tree, id, maxDegree) == Ok(list) <==> Represents(tree, id, list, maxDegree)
  {
    if id in tree && tree[id].Found? && |tree[id].cells| == maxDegree + 1 {
      hide FromU32, CellToLen;
      EncodesExact(tree[id].cells, list, maxDegree);
    }
  }

  class NeighborProvider {
    const maxDegree: nat
    const width: nat
    var tree: map<Cell, Entry>

    ghost predicate Valid()
      reads this
    {
      maxDegree < U32_LIMIT && width >= 4
    }

    constructor (maxDegree: nat, width: nat)
      requires maxDegree < U32_LIMIT && width >= 4
      ensures Valid() && this.maxDegree == maxDegree && this.width == width && tree == map[]
    {
      this.maxDegree := maxDegree;
      this.width := width;
      tree := map[];
    }

    ghost function List(id: Cell): Result<seq<Cell>>
      reads this
    {
      Read(tree, id, maxDegree)
    }

    method GetNeighbors(id: Cell) returns (r: Result<seq<Cell>>)
      requires Valid()
      ensures r == List(id)
      ensures forall list :: r == Ok(list) <==> Represents(tree, id, list, maxDegree)
    {
      r := Read(tree, id, maxDegree);
      forall list
        ensures Read(tree, id, maxDegree) == Ok(list) <==> Represents(tree, id, list, maxDegree)
      {
        ReadExact(tree, id, maxDegree, list);
      }
    }

    /** Serialises a list into `buf` and stores it. What the buffer held before does not show. */
    method SetNeighborsInternal(id: Cell, neighbors: seq<Cell>, buf: array<Cell>) returns (ok: bool)
      requires Valid() && |neighbors| <= maxDegree
      modifies this`tree, buf
      ensures ok <==> buf.Length > maxDegree
      ensures ok ==> List(id) == Ok(neighbors) && forall j :: j != id ==> List(j) == old(List(j))
      ensures !ok ==> tree == old(tree)
    {
      if buf.Length < maxDegree + 1 {
        return false;
      }
      for i := 0 to |neighbors|
        invariant buf[..i] == neighbors[..i]
        invariant tree == old(tree)
      {
        buf[i] := neighbors[i];
      }
      buf[maxDegree] := LenToCell(|neighbors|, width);
      LenRoundTrip(|neighbors|, width);
      assert buf[..|neighbors|] == neighbors;
      assert buf[..maxDegree + 1][..|neighbors|] == buf[..|neighbors|];
      tree := tree[id := Found(buf[..maxDegree + 1])];
      ok := true;
    }

    method SetNeighbors(id: Cell, neighbors: seq<Cell>, buf: array<Cell>) returns (ok: bool)
      requires Valid()
      modifies this`tree, buf
      ensures ok <==> |neighbors| <= maxDegree && buf.Length > maxDegree
      ensures ok ==> List(id) == Ok(neighbors) && forall j :: j != id ==> List(j) == old(List(j))
      ensures !ok ==> tree == old(tree)
    {
      if |neighbors| > maxDegree {
        return false;
      }
      ok := SetNeighborsInternal(id, neighbors, buf);
    }

    /** Reads a list, appends to the copy, and writes it back if it grew. */
    method AppendVector(id: Cell, more: seq<Cell>, buf: array<Cell>) returns (ok: bool)
      requires Valid()
      modifies this`tree, buf
      ensures ok <==> && old(List(id)).Ok?
                      && (|| buf.Length > maxDegree
                          || AppendUnique(old(List(id)).value, more, maxDegree) == old(List(id)).value)
      ensures ok ==> List(id) == Ok(AppendUnique(old(List(id)).value, more, maxDegree))
      ensures forall j :: j != id || !ok ==> List(j) == old(List(j))
    {
      var found := GetNeighbors(id);
      if found.Err? {
        return false;
      }
      var list, added := AppendTo(found.value, more, maxDegree);
      ok := true;
      if added {
        ok := SetNeighborsInternal(id, list, buf);
      }
    }

    method DeleteVector(id: Cell)
      modifies this`tree
      ensures List(id) == Err
      ensures forall j :: j != id ==> List(j) == old(List(j))
    {
      tree := tree[id := Deleted];
    }
  }

  /** The append loop on the copied list. */
  method AppendTo(list: seq<Cell>, more: seq<Cell>, maxDegree: nat) returns (result: seq<Cell>, added: bool)
    requires |list| <= maxDegree
    ensures result == AppendUnique(list, more, maxDegree)
    ensures |result| <= maxDegree
    ensures added <==> result != list
  {
    result, added := list, false;
    for k := 0 to |more|
      invariant |list| <= |result| <= maxDegree
      invariant AppendUnique(result, more[k..], maxDegree) == AppendUnique(list, more, maxDegree)
      invariant list <= result && (added <==> |result| > |list|)
    {
      if |result| == maxDegree {
        break;
      }
      assert more[k..][1..] == more[k + 1..];
      if more[k] !in result {
        result := result + [more[k]];
        added := true;
      }
    }
  }

  // ---- Whole runs through one accessor ----

  datatype Op = Set(id: Cell, list: seq<Cell>) | Append(id: Cell, list: seq<Cell>) | Delete(id: Cell)

  /** What the lists should be after a run, without records, cells or buffers. A deleted list can
      be set again but not appended to. */
  function Replay(ops: seq<Op>, maxDegree: nat): map<Cell, Result<seq<Cell>>> {
    if ops == [] then map[]
    else
      var before := Replay(ops[..|ops| - 1], maxDegree);
      Apply(before, ops[|ops| - 1], maxDegree)
  }

  function Apply(lists: map<Cell, Result<seq<Cell>>>, op: Op, maxDegree: nat): map<Cell, Result<seq<Cell>>> {
    match op
    case Set(id, list) => if |list| <= maxDegree then lists[id := Ok(list)] else lists
    case Append(id, list) =>
      var was := Expected(lists, id);
      if was.Ok? then lists[id := Ok(AppendUnique(was.value, list, maxDegree))] else lists
    case Delete(id) => lists[id := Err]
  }

  function Expected(lists: map<Cell, Result<seq<Cell>>>, id: Cell): Result<seq<Cell>> {
    if id in lists then lists[id] else Ok([])
  }

  method RunOne(p: NeighborProvider, op: Op, buf: array<Cell>, ghost lists: map<Cell, Result<seq<Cell>>>)
    requires p.Valid() && buf.Length > p.maxDegree
    requires forall id :: p.List(id) == Expected(lists, id)
    modifies p, buf
    ensures p.Valid()
    ensures forall id :: p.List(id) == Expected(Apply(lists, op, p.maxDegree), id)
  {
    match op
    case Set(id, list) => var _ := p.SetNeighbors(id, list, buf);
    case Append(id, list) => var _ := p.AppendVector(id, list, buf);
    case Delete(id) => p.DeleteVector(id);
  }

  /** For any run through one accessor, starting with any contents of its buffer, reading a vertex
      gives exactly the last list written for it. */
  method RunAll(maxDegree: nat, width: nat, ops: seq<Op>, buf: array<Cell>) returns (p: NeighborProvider)
    requires maxDegree < U32_LIMIT && width >= 4 && buf.Length == maxDegree + 1
    modifies buf
    ensures p.Valid() && p.maxDegree == maxDegree
    ensures forall id :: p.List(id) == Expected(Replay(ops, maxDegree), id)
  {
    p := new NeighborProvider(maxDegree, width);
    for k := 0 to |ops|
      invariant fresh(p) && p.Valid() && p.maxDegree == maxDegree
      invariant forall id :: p.List(id) == Expected(Replay(ops[..k], maxDegree), id)
    {
      assert ops[..k + 1][..k] == ops[..k];
      RunOne(p, ops[k], buf, Replay(ops[..k], maxDegree));
    }
    assert ops[..|ops|] == ops;
  }
}
