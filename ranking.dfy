/**
 * Python's stable `sort(key=..., reverse=True)`: items in descending key order,
 * items with equal keys in their original relative order. The sort is given
 * as the permutation of positions it applies.
 */
module Ranking {

  /** A sort key compared lexicographically, like the tuple `(major, minor)`. */
  datatype SortKey = SortKey(major: int, minor: int)

  predicate Greater(a: SortKey, b: SortKey) {
    a.major > b.major || (a.major == b.major && a.minor > b.minor)
  }

  /** Position `a` comes before position `b` in a stable descending sort. */
  predicate Before(keys: seq<SortKey>, a: nat, b: nat)
    requires a < |keys| && b < |keys|
  {
    Greater(keys[a], keys[b]) || (keys[a] == keys[b] && a < b)
  }

  /** Positions all below `n` and pairwise distinct. */
  predicate Positions(order: seq<nat>, n: nat) {
    (forall i :: 0 <= i < |order| ==> order[i] < n)
    && (forall i, j :: 0 <= i < j < |order| ==> order[i] != order[j])
  }

  /** Every pair of positions is in `Before` order. */
  predicate Ordered(keys: seq<SortKey>, order: seq<nat>)
    requires forall i :: 0 <= i < |order| ==> order[i] < |keys|
  {
    forall i, j :: 0 <= i < j < |order| ==> Before(keys, order[i], order[j])
  }

  /** Places position `n` after every position whose key is at least `keys[n]`. */
  function Insert(keys: seq<SortKey>, order: seq<nat>, n: nat): (r: seq<nat>)
    requires n < |keys|
    requires forall i :: 0 <= i < |order| ==> order[i] < n
    ensures |r| == |order| + 1
    ensures forall x :: x in r <==> x == n || x in order
  {
    if order == [] then [n]
    else if Greater(keys[n], keys[order[0]]) then [n] + order
    else [order[0]] + Insert(keys, order[1..], n)
  }

  /** The positions `0 .. n-1` of `keys`, stably sorted by descending key. */
  function SortPrefix(keys: seq<SortKey>, n: nat): (r: seq<nat>)
    requires n <= |keys|
    ensures |r| == n
    ensures forall x: nat :: x in r <==> x < n
    ensures forall i :: 0 <= i < |r| ==> r[i] < n
  {
    if n == 0 then []
    else
      var prev := SortPrefix(keys, n - 1);
      var r := Insert(keys, prev, n - 1);
      assert forall i :: 0 <= i < |r| ==> r[i] in r;
      r
  }

  /** The stable descending sort of all positions of `keys`. */
  function StableSortDesc(keys: seq<SortKey>): (r: seq<nat>)
    ensures |r| == |keys|
    ensures forall i :: 0 <= i < |r| ==> r[i] < |keys|
  {
    SortPrefix(keys, |keys|)
  }

  /** The items of `xs` in the order `perm` gives. */
  function ApplyPerm<T>(xs: seq<T>, perm: seq<nat>): (r: seq<T>)
    requires forall i :: 0 <= i < |perm| ==> perm[i] < |xs|
    ensures |r| == |perm|
    ensures forall i :: 0 <= i < |perm| ==> r[i] == xs[perm[i]]
  {
    seq(|perm|, i requires 0 <= i < |perm| => xs[perm[i]])
  }

  /** Inserting the newest position into a sorted order keeps it sorted. */
  lemma {:induction false} InsertOrdered(keys: seq<SortKey>, order: seq<nat>, n: nat)
    requires n < |keys|
    requires Positions(order, n) && Ordered(keys, order)
    ensures Positions(Insert(keys, order, n), n + 1)
    ensures Ordered(keys, Insert(keys, order, n))
  {
    if order != [] {
      var r := Insert(keys, order, n);
      if Greater(keys[n], keys[order[0]]) {
        forall j | 0 <= j < |order| ensures Before(keys, n, order[j]) {
          if j > 0 {
            assert Before(keys, order[0], order[j]);
          }
        }
        forall i, j | 0 <= i < j < |r| ensures Before(keys, r[i], r[j]) {
          if i > 0 {
            assert r[i] == order[i - 1] && r[j] == order[j - 1];
          }
        }
      } else {
        var rest := order[1..];
        assert Positions(rest, n) && Ordered(keys, rest) by {
          forall i, j | 0 <= i < j < |rest| ensures rest[i] != rest[j] && Before(keys, rest[i], rest[j]) {
            assert rest[i] == order[i + 1] && rest[j] == order[j + 1];
          }
        }
        InsertOrdered(keys, rest, n);
        var tail := Insert(keys, rest, n);
        assert r == [order[0]] + tail;
        forall x | x in tail ensures Before(keys, order[0], x) && order[0] != x {
          if x != n {
            var j :| 0 <= j < |rest| && rest[j] == x;
            assert Before(keys, order[0], order[j + 1]);
          }
        }
        forall i, j | 0 <= i < j < |r| ensures Before(keys, r[i], r[j]) && r[i] != r[j] {
          if i == 0 {
            assert r[j] in tail;
          } else {
            assert r[i] == tail[i - 1] && r[j] == tail[j - 1];
          }
        }
      }
    }
  }

  /** The sorted prefix holds every position below `n` exactly once, in `Before` order. */
  lemma {:induction false} SortPrefixCorrect(keys: seq<SortKey>, n: nat)
    requires n <= |keys|
    ensures |SortPrefix(keys, n)| == n
    ensures Positions(SortPrefix(keys, n), n)
    ensures Ordered(keys, SortPrefix(keys, n))
  {
    if n > 0 {
      SortPrefixCorrect(keys, n - 1);
      InsertOrdered(keys, SortPrefix(keys, n - 1), n - 1);
    }
  }

  /**
   * The sort is a permutation of the positions; higher keys come first, and
   * equal keys keep their original order.
   */
  lemma StableSortCorrect(keys: seq<SortKey>)
    ensures |StableSortDesc(keys)| == |keys|
    ensures forall i :: 0 <= i < |keys| ==> i in StableSortDesc(keys)
    ensures forall i, j :: 0 <= i < j < |keys| ==> StableSortDesc(keys)[i] != StableSortDesc(keys)[j]
    ensures forall i :: 0 <= i < |keys| ==> StableSortDesc(keys)[i] < |keys|
    ensures forall i, j :: 0 <= i < j < |keys| ==>
      var a, b := StableSortDesc(keys)[i], StableSortDesc(keys)[j];
      Greater(keys[a], keys[b]) || (keys[a] == keys[b] && a < b)
  {
    SortPrefixCorrect(keys, |keys|);
  }

  /** No key is greater than an earlier one. */
  predicate NonIncreasing(keys: seq<SortKey>) {
    forall i, j :: 0 <= i < j < |keys| ==> !Greater(keys[j], keys[i])
  }

  /** A strictly increasing sequence of `n` positions below `n` is `0, 1, ..., n-1`. */
  lemma {:induction false} IncreasingPositions(order: seq<nat>, n: nat)
    requires |order| == n
    requires forall i :: 0 <= i < n ==> order[i] < n
    requires forall i, j :: 0 <= i < j < n ==> order[i] < order[j]
    ensures forall i :: 0 <= i < n ==> order[i] == i
  {
    if n > 0 {
      var init := order[..n - 1];
      assert order[n - 1] == n - 1 by {
        forall i | 0 <= i < n ensures order[i] >= i {
          var k := 0;
          while k < i
            invariant k <= i
            invariant order[k] >= k
          {
            k := k + 1;
          }
        }
      }
      IncreasingPositions(init, n - 1);
    }
  }

  /** Sorting keys that are already in descending order changes nothing: the sort is stable. */
  lemma SortedStaysPut(keys: seq<SortKey>)
    requires NonIncreasing(keys)
    ensures forall i :: 0 <= i < |keys| ==> StableSortDesc(keys)[i] == i
  {
    var order := StableSortDesc(keys);
    StableSortCorrect(keys);
    forall i, j | 0 <= i < j < |keys| ensures order[i] < order[j] {
      var a, b := order[i], order[j];
      assert Greater(keys[a], keys[b]) || (keys[a] == keys[b] && a < b);
    }
    IncreasingPositions(order, |keys|);
  }
}
