/** Random sampling of live IDs, with a batch that doubles until the request is met. */
module RandomMembers {
  import opened Collections
  import SearchResults

  /** What the sampler promises: `amount` distinct indices below `length`. */
  ghost predicate SampleOk(sample: seq<nat>, length: nat, amount: nat) {
    && |sample| == amount
    && (forall i :: 0 <= i < |sample| ==> sample[i] < length)
    && Unique(sample)
  }

  ghost predicate SamplerOk(sampler: (nat, nat, nat) -> seq<nat>) {
    forall round, length, amount :: amount <= length ==> SampleOk(sampler(round, length, amount), length, amount)
  }

  /** First batch: the request scaled by how sparse the live IDs are. */
  function FirstBatch(remaining: nat, idSpace: nat, total: nat): (batch: nat)
    requires idSpace > 0
    ensures 1 <= batch <= idSpace
  {
    var t := if total > 1 then total else 1;
    var scaled := (remaining * idSpace + t - 1) / t;
    if scaled < 1 then 1 else if scaled > idSpace then idSpace else scaled
  }

  /** The first batch is the smallest that, at the density of live IDs, holds as many as are wanted;
      at least one ID, and all of them if they do not do. */
  lemma FirstBatchScales(remaining: nat, idSpace: nat, total: nat)
    requires idSpace > 0 && total > 0
    ensures var batch := FirstBatch(remaining, idSpace, total);
            && (batch * total >= remaining * idSpace || batch == idSpace)
            && ((batch - 1) * total < remaining * idSpace || batch == 1)
  {
    var want := remaining * idSpace;
    var scaled := (want + total - 1) / total;
    RoundsUp(want, total);
    var batch := FirstBatch(remaining, idSpace, total);
    if batch < scaled {
      MulMono(batch, scaled - 1, total);
    } else if batch > scaled {
      assert batch == 1;
    }
  }

  lemma RoundsUp(want: nat, total: nat)
    requires total > 0
    ensures var scaled := (want + total - 1) / total;
            scaled * total >= want && (scaled > 0 ==> (scaled - 1) * total < want)
  {
    var scaled := (want + total - 1) / total;
    assert scaled * total + (want + total - 1) % total == want + total - 1;
    assert (scaled - 1) * total == scaled * total - total;
  }

  lemma MulMono(a: int, b: int, c: nat)
    requires a <= b
    ensures a * c <= b * c
  {
  }

  // ---- What is drawn ----

  /** The samples drawn, one after the other, each twice as big as the last until one covers all. */
  ghost function Drawn(sampler: (nat, nat, nat) -> seq<nat>, idSpace: nat, batch: nat, round: nat): seq<nat>
    requires 1 <= batch <= idSpace
    decreases idSpace - batch
  {
    sampler(round, idSpace, batch) +
    if batch == idSpace then [] else Drawn(sampler, idSpace, Min(2 * batch, idSpace), round + 1)
  }

  /** All samples together are not more than three times the ID space. */
  lemma {:induction false} DrawnWithin(sampler: (nat, nat, nat) -> seq<nat>, idSpace: nat, batch: nat, round: nat)
    requires SamplerOk(sampler) && 1 <= batch <= idSpace
    ensures |Drawn(sampler, idSpace, batch, round)| <= if batch == idSpace then idSpace else 3 * idSpace - batch
    decreases idSpace - batch
  {
    assert SampleOk(sampler(round, idSpace, batch), idSpace, batch);
    if batch < idSpace {
      DrawnWithin(sampler, idSpace, Min(2 * batch, idSpace), round + 1);
    }
  }

  /** The members among the drawn IDs, in the order in which each is first drawn. */
  ghost function Members(drawn: seq<nat>, live: set<nat>, seen: set<nat>): seq<nat> {
    if drawn == [] then []
    else (if drawn[0] in live && drawn[0] !in seen then [drawn[0]] else []) +
         Members(drawn[1..], live, seen + {drawn[0]})
  }

  lemma {:induction false} MembersSplit(a: seq<nat>, b: seq<nat>, live: set<nat>, seen: set<nat>)
    ensures Members(a + b, live, seen) == Members(a, live, seen) + Members(b, live, seen + Elements(a))
  {
    if a == [] {
      assert a + b == b && seen + Elements(a) == seen;
    } else {
      assert seen + {a[0]} + Elements(a[1..]) == seen + Elements(a);
      assert (a + b)[1..] == a[1..] + b;
      hide Elements;
      MembersSplit(a[1..], b, live, seen + {a[0]});
    }
  }

  /** A full sample is the whole range. */
  lemma FullSample(sample: seq<nat>, length: nat)
    requires SampleOk(sample, length, length)
    ensures forall i: nat :: i < length ==> i in sample
  {
    UniqueSize(sample);
    SubsetSize(Elements(sample), Below(length));
    forall i: nat | i < length
      ensures i in sample
    {
      assert i in Below(length);
    }
  }

  /** The external IDs of the picked ones, as results without a distance. */
  function Items(picked: seq<nat>, ext: map<nat, SearchResults.Id>): seq<SearchResults.Item>
    requires forall i :: 0 <= i < |picked| ==> picked[i] in ext
  {
    seq(|picked|, i requires 0 <= i < |picked| => SearchResults.Item(ext[picked[i]], 0.0))
  }

  /** The IDs that went out are live and distinct, and their external IDs are what was written. */
  ghost predicate Written(picked: seq<nat>, ext: map<nat, SearchResults.Id>,
                          before: seq<SearchResults.Item>, after: seq<SearchResults.Item>) {
    && (forall i :: 0 <= i < |picked| ==> picked[i] in ext)
    && Unique(picked)
    && after == before + Items(picked, ext)
  }

  lemma PickOne(chosen: set<nat>, picked: seq<nat>, x: nat, ext: map<nat, SearchResults.Id>,
                before: seq<SearchResults.Item>, after: seq<SearchResults.Item>)
    requires Elements(picked) == chosen * ext.Keys && Written(picked, ext, before, after)
    requires x !in chosen && x in ext
    ensures Elements(picked + [x]) == (chosen + {x}) * ext.Keys
    ensures Written(picked + [x], ext, before, after + [SearchResults.Item(ext[x], 0.0)])
  {
    assert Elements(picked + [x]) == Elements(picked) + {x};
    assert forall i :: 0 <= i < |picked| ==> picked[i] in Elements(picked);
    assert Items(picked + [x], ext) == Items(picked, ext) + [SearchResults.Item(ext[x], 0.0)];
  }

  /** Some member that did not go out does not fit the buffers any more. */
  ghost predicate NoRoom(picked: seq<nat>, ext: map<nat, SearchResults.Id>, items: seq<SearchResults.Item>,
                         idBytes: nat, slots: nat) {
    exists i :: && i in ext && i !in picked
                && !SearchResults.Fits(items + [SearchResults.Item(ext[i], 0.0)], idBytes, slots)
  }

  /** Buffers without a free slot or byte have no room for any item. */
  lemma NothingFits(items: seq<SearchResults.Item>, item: SearchResults.Item, idBytes: nat, slots: nat)
    requires |items| >= slots || |SearchResults.Encode(items)| >= idBytes
    ensures !SearchResults.Fits(items + [item], idBytes, slots)
  {
    SearchResults.EncodeOneMore(items, item);
    hide SearchResults.Encode, SearchResults.EncodeId;
  }

  /** If a push said that the buffers are full, no member that is left over has room. */
  lemma LeftOver(picked: seq<nat>, ext: map<nat, SearchResults.Id>, items: seq<SearchResults.Item>,
                 before: seq<SearchResults.Item>, idBytes: nat, slots: nat)
    requires Written(picked, ext, before, items) && |picked| < |ext|
    requires |items| >= slots || |SearchResults.Encode(items)| >= idBytes
    ensures NoRoom(picked, ext, items, idBytes, slots)
  {
    UniqueSize(picked);
    SubsetSize(Elements(picked), ext.Keys);
    var i :| i in ext.Keys && i !in Elements(picked);
    NothingFits(items, SearchResults.Item(ext[i], 0.0), idBytes, slots);
  }

  lemma HasNoRoom(picked: seq<nat>, chosen: set<nat>, x: nat, ext: map<nat, SearchResults.Id>,
                  items: seq<SearchResults.Item>, idBytes: nat, slots: nat)
    requires Elements(picked) == chosen * ext.Keys && x !in chosen && x in ext
    requires !SearchResults.Fits(items + [SearchResults.Item(ext[x], 0.0)], idBytes, slots)
    ensures NoRoom(picked, ext, items, idBytes, slots)
  {
    assert x !in Elements(picked);
    hide SearchResults.Fits;
  }

  /** Pushes one more member. */
  method TakeOne(x: nat, ghost chosen: set<nat>, ghost picked0: seq<nat>, ext: map<nat, SearchResults.Id>,
                 output: SearchResults.Buffers, ghost before: seq<SearchResults.Item>)
    returns (ghost picked: seq<nat>, full: bool)
    requires output.Valid() && x !in chosen && x in ext
    requires Elements(picked0) == chosen * ext.Keys && Written(picked0, ext, before, output.items)
    modifies output, output.ids, output.dists
    ensures output.Valid() && Written(picked, ext, before, output.items) && picked <= picked0 + [x]
    ensures !full ==> picked == picked0 + [x] && Elements(picked) == (chosen + {x}) * ext.Keys
    ensures full && |picked| < |ext| ==> NoRoom(picked, ext, output.items, output.ids.Length, output.dists.Length)
  {
    hide Written, NoRoom, SearchResults.Fits, SearchResults.Encode;
    PickOne(chosen, picked0, x, ext, before, output.items);
    ghost var sofar := output.items;
    var state := output.Push(SearchResults.Item(ext[x], 0.0));
    full := state == SearchResults.Full;
    if output.items != sofar {
      picked := picked0 + [x];
      if full && |picked| < |ext| {
        LeftOver(picked, ext, output.items, before, output.ids.Length, output.dists.Length);
      }
    } else {
      picked := picked0;
      HasNoRoom(picked, chosen, x, ext, sofar, output.ids.Length, output.dists.Length);
    }
  }

  /** Goes through one sample. `full` says that a push found or left the buffers full. */
  method TakeBatch(sample: seq<nat>, chosen0: set<nat>, ghost picked0: seq<nat>, remaining0: nat,
                   ext: map<nat, SearchResults.Id>, output: SearchResults.Buffers,
                   ghost before: seq<SearchResults.Item>)
    returns (chosen: set<nat>, ghost picked: seq<nat>, remaining: nat, full: bool)
    requires remaining0 > 0 && output.Valid()
    requires Elements(picked0) == chosen0 * ext.Keys && Written(picked0, ext, before, output.items)
    modifies output, output.ids, output.dists
    ensures output.Valid() && Written(picked, ext, before, output.items)
    ensures |picked| + remaining <= |picked0| + remaining0
    ensures !full ==> |picked| + remaining == |picked0| + remaining0 && Elements(picked) == chosen * ext.Keys
    ensures full && |picked| < |ext| ==> NoRoom(picked, ext, output.items, output.ids.Length, output.dists.Length)
    ensures !full && remaining > 0 ==> chosen == chosen0 + Elements(sample)
    ensures !full && remaining > 0 ==> picked == picked0 + Members(sample, ext.Keys, chosen0)
    ensures picked <= picked0 + Members(sample, ext.Keys, chosen0)
  {
    hide Written, NoRoom, SearchResults.Encode, Elements;
    chosen, picked, remaining, full := chosen0, picked0, remaining0, false;
    NoElements(sample);
    for k := 0 to |sample|
      invariant remaining > 0 && !full && output.Valid()
      invariant Elements(picked) == chosen * ext.Keys && Written(picked, ext, before, output.items)
      invariant |picked| + remaining == |picked0| + remaining0
      invariant chosen == chosen0 + Elements(sample[..k])
      invariant picked + Members(sample[k..], ext.Keys, chosen) == picked0 + Members(sample, ext.Keys, chosen0)
    {
      ElementsNext(sample, k);
      MembersNext(sample, k, ext.Keys, chosen);
      if sample[k] !in chosen {
        if sample[k] in ext {
          picked, full := TakeOne(sample[k], chosen, picked, ext, output, before);
          chosen := chosen + {sample[k]};
          remaining := remaining - 1;
          if remaining == 0 || full {
            return;
          }
        } else {
          chosen := chosen + {sample[k]};
        }
      }
    }
    assert sample[..|sample|] == sample;
  }

  lemma MembersNext(sample: seq<nat>, k: nat, live: set<nat>, seen: set<nat>)
    requires k < |sample|
    ensures Members(sample[k..], live, seen) ==
            (if sample[k] in live && sample[k] !in seen then [sample[k]] else []) +
            Members(sample[k + 1..], live, seen + {sample[k]})
    ensures sample[k] in seen ==> seen + {sample[k]} == seen
  {
    assert sample[k..][1..] == sample[k + 1..];
  }

  lemma NoElements(s: seq<nat>)
    ensures Elements(s[..0]) == {}
  {
  }

  /** Samples up to `count` members. Without a concurrent change, the IDs that go out are distinct
      and have an external ID, and there are exactly as many as asked for, or as there are used IDs
      or IDs with an external one if those are fewer, unless one that is left over does not fit the
      buffers. They are the first that come up in the samples drawn. An insert that failed may have
      left an external ID without a vector behind. */
  method RandomMembers(count: nat, maxId: nat, total: nat, ext: map<nat, SearchResults.Id>,
                       sampler: (nat, nat, nat) -> seq<nat>, output: SearchResults.Buffers)
    returns (ghost picked: seq<nat>)
    requires SamplerOk(sampler) && output.Valid()
    requires forall i :: i in ext ==> i <= maxId
    modifies output, output.ids, output.dists
    ensures output.Valid() && Written(picked, ext, old(output.items), output.items)
    ensures |picked| <= Min(count, Min(total, |ext|))
    ensures || |picked| == Min(count, Min(total, |ext|))
            || NoRoom(picked, ext, output.items, output.ids.Length, output.dists.Length)
    ensures var first := FirstBatch(Min(count, total), maxId + 1, total);
            picked <= Members(Drawn(sampler, maxId + 1, first, 0), ext.Keys, {})
  {
    hide Written, NoRoom, Members, SamplerOk, Elements, SampleOk, FirstBatch;
    var idSpace := maxId + 1;
    var remaining := Min(count, total);
    var chosen: set<nat> := {};
    var full := false;
    picked := [];
    WrittenNothing(ext, output.items);
    var batch := FirstBatch(remaining, idSpace, total);
    ghost var all := Members(Drawn(sampler, idSpace, batch, 0), ext.Keys, {});
    var round := 0;
    while remaining > 0
      invariant 1 <= batch <= idSpace && !full && output.Valid()
      invariant Elements(picked) == chosen * ext.Keys && Written(picked, ext, old(output.items), output.items)
      invariant |picked| + remaining == Min(count, total)
      invariant picked + Members(Drawn(sampler, idSpace, batch, round), ext.Keys, chosen) == all
      decreases idSpace - batch
    {
      var sample := sampler(round, idSpace, batch);
      SampleAt(sampler, round, idSpace, batch);
      ghost var rest := if batch == idSpace then [] else Drawn(sampler, idSpace, Min(2 * batch, idSpace), round + 1);
      ghost var picked0, chosen0 := picked, chosen;
      chosen, picked, remaining, full := TakeBatch(sample, chosen, picked, remaining, ext, output, old(output.items));
      OneRound(all, picked0, picked, sample, rest, ext.Keys, chosen0);
      if remaining == 0 || full {
        break;
      }
      if batch == idSpace {
        WholeSpace(sample, idSpace, chosen0, ext.Keys);
        break;
      }
      batch := Min(2 * batch, idSpace);
      round := round + 1;
    }
    PickedWithin(picked, ext, old(output.items), output.items);
    if !full {
      PickedSize(picked, ext, chosen, old(output.items), output.items);
    }
  }

  lemma SampleAt(sampler: (nat, nat, nat) -> seq<nat>, round: nat, length: nat, amount: nat)
    requires SamplerOk(sampler) && amount <= length
    ensures SampleOk(sampler(round, length, amount), length, amount)
  {
  }

  /** What a round has picked is next among the members; if it went through its sample, the rest of
      them is still to come. */
  lemma OneRound(all: seq<nat>, picked0: seq<nat>, picked: seq<nat>, sample: seq<nat>, rest: seq<nat>, live: set<nat>,
                 seen: set<nat>)
    requires picked0 + Members(sample + rest, live, seen) == all
    requires picked <= picked0 + Members(sample, live, seen)
    ensures picked <= all
    ensures picked == picked0 + Members(sample, live, seen) ==>
              picked + Members(rest, live, seen + Elements(sample)) == all
  {
    MembersSplit(sample, rest, live, seen);
    hide Members, Elements;
  }

  lemma WholeSpace(sample: seq<nat>, idSpace: nat, chosen: set<nat>, live: set<nat>)
    requires SampleOk(sample, idSpace, idSpace) && forall i :: i in live ==> i < idSpace
    ensures (chosen + Elements(sample)) * live == live
  {
    FullSample(sample, idSpace);
  }

  lemma WrittenNothing(ext: map<nat, SearchResults.Id>, items: seq<SearchResults.Item>)
    ensures Written([], ext, items, items) && Elements<nat>([]) == {} * ext.Keys
  {
    assert Items([], ext) == [];
  }

  lemma PickedWithin(picked: seq<nat>, ext: map<nat, SearchResults.Id>,
                     before: seq<SearchResults.Item>, after: seq<SearchResults.Item>)
    requires Written(picked, ext, before, after)
    ensures |picked| <= |ext|
  {
    UniqueSize(picked);
    SubsetSize(Elements(picked), ext.Keys);
  }

  lemma PickedSize(picked: seq<nat>, ext: map<nat, SearchResults.Id>, chosen: set<nat>,
                   before: seq<SearchResults.Item>, after: seq<SearchResults.Item>)
    requires Written(picked, ext, before, after) && Elements(picked) == chosen * ext.Keys
    ensures chosen * ext.Keys == ext.Keys ==> |picked| == |ext|
  {
    UniqueSize(picked);
    SubsetSize(Elements(picked), ext.Keys);
  }
}
