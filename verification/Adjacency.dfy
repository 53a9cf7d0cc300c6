/**
 Neighbour lists: the one specification of "append unique up to the maximum degree" that both the
 Garnet provider and the bf-tree provider implement.
 */
module Adjacency {
  import opened Collections

  /** Appends the IDs of `more` in order, skipping those already there and stopping when full. */
  function AppendUnique<T(==)>(list: seq<T>, more: seq<T>, maxDegree: nat): seq<T>
    decreases more
  {
    if more == [] || |list| >= maxDegree then list
    else AppendUnique(Push(list, more[0]), more[1..], maxDegree)
  }

  /** What an adjacency list does on `push`. */
  function Push<T(==)>(list: seq<T>, x: T): seq<T> {
    if x in list then list else list + [x]
  }

  /** `sub` comes out of `s` by dropping entries. */
  ghost predicate Subsequence<T>(sub: seq<T>, s: seq<T>)
    decreases s
  {
    if sub == [] then true
    else if s == [] then false
    else (sub[0] == s[0] && Subsequence(sub[1..], s[1..])) || Subsequence(sub, s[1..])
  }

  /** The result extends the old list with some of the new IDs, in their order, and stays within
      the degree and free of repetitions if it was. */
  lemma {:induction false} AppendExtends<T>(list: seq<T>, more: seq<T>, maxDegree: nat)
    ensures list <= AppendUnique(list, more, maxDegree)
    ensures Subsequence(AppendUnique(list, more, maxDegree)[|list|..], more)
    ensures |list| <= maxDegree ==> |AppendUnique(list, more, maxDegree)| <= maxDegree
    ensures Unique(list) ==> Unique(AppendUnique(list, more, maxDegree))
    decreases more
  {
    if more != [] && |list| < maxDegree {
      AppendExtends(Push(list, more[0]), more[1..], maxDegree);
      var result := AppendUnique(list, more, maxDegree);
      if more[0] !in list {
        assert result[|list|] == more[0];
        assert result[|list|..][1..] == result[|list| + 1..];
      }
    }
  }

  lemma {:induction false} AppendWithin<T>(list: seq<T>, more: seq<T>, maxDegree: nat)
    ensures Elements(AppendUnique(list, more, maxDegree)) <= Elements(list) + Elements(more)
    decreases more
  {
    if more != [] && |list| < maxDegree {
      AppendWithin(Push(list, more[0]), more[1..], maxDegree);
      assert Elements(Push(list, more[0])) == Elements(list) + {more[0]};
      assert Elements(more) == {more[0]} + Elements(more[1..]);
    }
  }

  /** A list that is not full has taken in everything. */
  lemma {:induction false} AppendTakesAll<T>(list: seq<T>, more: seq<T>, maxDegree: nat)
    requires |AppendUnique(list, more, maxDegree)| < maxDegree
    ensures Elements(AppendUnique(list, more, maxDegree)) == Elements(list) + Elements(more)
    decreases more
  {
    AppendExtends(list, more, maxDegree);
    if more != [] && |list| < maxDegree {
      AppendTakesAll(Push(list, more[0]), more[1..], maxDegree);
      assert Elements(Push(list, more[0])) == Elements(list) + {more[0]};
      assert Elements(more) == {more[0]} + Elements(more[1..]);
    }
  }

  /** When old and new IDs fit together, the result holds exactly both; when they do not, it is
      filled to the maximum degree. */
  lemma AppendUnion<T>(list: seq<T>, more: seq<T>, maxDegree: nat)
    requires Unique(list) && |list| <= maxDegree
    ensures |Elements(list) + Elements(more)| <= maxDegree ==>
              Elements(AppendUnique(list, more, maxDegree)) == Elements(list) + Elements(more)
    ensures |Elements(list) + Elements(more)| > maxDegree ==> |AppendUnique(list, more, maxDegree)| == maxDegree
  {
    var result := AppendUnique(list, more, maxDegree);
    AppendExtends(list, more, maxDegree);
    AppendWithin(list, more, maxDegree);
    UniqueSize(result);
    if |result| < maxDegree {
      AppendTakesAll(list, more, maxDegree);
    } else {
      SubsetSize(Elements(result), Elements(list) + Elements(more));
    }
  }

  /** Appending in two goes is appending once. */
  lemma {:induction false} AppendTwice<T>(list: seq<T>, a: seq<T>, b: seq<T>, maxDegree: nat)
    ensures AppendUnique(AppendUnique(list, a, maxDegree), b, maxDegree) == AppendUnique(list, a + b, maxDegree)
    decreases a
  {
    if a == [] {
      assert a + b == b;
    } else if |list| < maxDegree {
      AppendTwice(Push(list, a[0]), a[1..], b, maxDegree);
      assert (a + b)[1..] == a[1..] + b;
    }
  }
}
