/** Python's `sorted(range(n), key=lambda i: keys[i], reverse=True)`.

    A stable sort in reverse order keeps equal keys in their original
    order, so on positions 0..n-1 it produces the order "higher key first,
    lower position first among equal keys". Ahead is that order; it is
    strict and total on distinct positions, so there is exactly one
    arrangement of 0..n-1 sorted by it (RankUnique), and RankDesc, an
    insertion sort, computes it. */
module Ranking {

  /** Position i comes before position j in the descending stable order. */
  predicate Ahead(keys: seq<real>, i: nat, j: nat)
    requires i < |keys| && j < |keys|
  {
    keys[i] > keys[j] || (keys[i] == keys[j] && i < j)
  }

  predicate InRange(keys: seq<real>, xs: seq<nat>) {
    forall k :: 0 <= k < |xs| ==> xs[k] < |keys|
  }

  predicate SortedAhead(keys: seq<real>, xs: seq<nat>)
    requires InRange(keys, xs)
  {
    forall a, b :: 0 <= a < b < |xs| ==> Ahead(keys, xs[a], xs[b])
  }

  predicate Distinct<T(==)>(xs: seq<T>) {
    forall a, b :: 0 <= a < b < |xs| ==> xs[a] != xs[b]
  }

  /** Positions 0..n-1 in increasing order: `range(n)`. */
  function Range(n: nat): (r: seq<nat>)
    ensures |r| == n && forall i :: 0 <= i < n ==> r[i] == i
  {
    seq(n, i requires 0 <= i < n => i)
  }

  function Insert(keys: seq<real>, x: nat, xs: seq<nat>): (r: seq<nat>)
    requires x < |keys| && InRange(keys, xs)
    ensures multiset(r) == multiset(xs) + multiset{x}
    ensures |r| == |xs| + 1 && InRange(keys, r)
  {
    if xs == [] then [x]
    else if Ahead(keys, x, xs[0]) then [x] + xs
    else
      assert xs == [xs[0]] + xs[1..];
      [xs[0]] + Insert(keys, x, xs[1..])
  }

  function Sort(keys: seq<real>, xs: seq<nat>): (r: seq<nat>)
    requires InRange(keys, xs)
    ensures multiset(r) == multiset(xs)
    ensures |r| == |xs| && InRange(keys, r)
  {
    if xs == [] then []
    else
      assert xs == [xs[0]] + xs[1..];
      Insert(keys, xs[0], Sort(keys, xs[1..]))
  }

  /** The positions of keys, highest key first, ties in position order. */
  function RankDesc(keys: seq<real>): (r: seq<nat>)
    ensures |r| == |keys| && InRange(keys, r)
  {
    Sort(keys, Range(|keys|))
  }

  lemma AheadTotal(keys: seq<real>, i: nat, j: nat)
    requires i < |keys| && j < |keys| && i != j
    ensures Ahead(keys, i, j) != Ahead(keys, j, i)
  {
  }

  lemma {:induction false} InsertSorted(keys: seq<real>, x: nat, xs: seq<nat>)
    requires x < |keys| && InRange(keys, xs) && SortedAhead(keys, xs)
    requires x !in multiset(xs)
    ensures SortedAhead(keys, Insert(keys, x, xs))
  {
    if xs != [] {
      var r := Insert(keys, x, xs);
      if Ahead(keys, x, xs[0]) {
        assert r == [x] + xs;
        forall a, b | 0 <= a < b < |r| ensures Ahead(keys, r[a], r[b]) {
          if a == 0 && b > 1 {
            assert Ahead(keys, xs[0], xs[b - 1]);
          }
        }
      } else {
        var tail := xs[1..];
        assert xs == [xs[0]] + tail;
        InsertSorted(keys, x, tail);
        var ins := Insert(keys, x, tail);
        assert r == [xs[0]] + ins;
        InsertBehindHead(keys, x, xs);
        forall a, b | 0 <= a < b < |r| ensures Ahead(keys, r[a], r[b]) {
          if a > 0 {
            assert r[a] == ins[a - 1] && r[b] == ins[b - 1];
          }
        }
      }
    }
  }

  /** When x does not go first, every element of the insertion into the tail
      stays behind the head. */
  lemma InsertBehindHead(keys: seq<real>, x: nat, xs: seq<nat>)
    requires x < |keys| && InRange(keys, xs) && SortedAhead(keys, xs)
    requires xs != [] && x !in multiset(xs) && !Ahead(keys, x, xs[0])
    ensures forall b :: 0 <= b < |xs| ==> Ahead(keys, xs[0], Insert(keys, x, xs[1..])[b])
  {
    assert xs[0] in multiset(xs);
    AheadTotal(keys, x, xs[0]);
    var tail := xs[1..];
    assert xs == [xs[0]] + tail;
    var ins := Insert(keys, x, tail);
    forall b | 0 <= b < |ins| ensures Ahead(keys, xs[0], ins[b]) {
      assert ins[b] in multiset(ins);
      if ins[b] != x {
        assert ins[b] in multiset(tail);
        var k :| 0 <= k < |tail| && tail[k] == ins[b];
        assert xs[k + 1] == ins[b];
      }
    }
  }

  lemma {:induction false} SortSorted(keys: seq<real>, xs: seq<nat>)
    requires InRange(keys, xs) && Distinct(xs)
    ensures SortedAhead(keys, Sort(keys, xs))
  {
    if xs != [] {
      var tail := xs[1..];
      assert xs == [xs[0]] + tail;
      SortSorted(keys, tail);
      forall k | 0 <= k < |tail| ensures tail[k] != xs[0] {
        assert tail[k] == xs[k + 1];
      }
      assert xs[0] !in tail;
      InsertSorted(keys, xs[0], Sort(keys, tail));
    }
  }

  /** RankDesc lists every position exactly once, in the descending stable order. */
  lemma RankDescSorted(keys: seq<real>)
    ensures SortedAhead(keys, RankDesc(keys))
    ensures multiset(RankDesc(keys)) == multiset(Range(|keys|))
    ensures forall i :: 0 <= i < |keys| ==> i in RankDesc(keys)
  {
    var rg := Range(|keys|);
    SortSorted(keys, rg);
    forall i | 0 <= i < |keys| ensures i in RankDesc(keys) {
      assert rg[i] == i;
      assert i in multiset(rg);
    }
  }

  /** Two arrangements of the same positions that are both sorted by Ahead are
      equal: the stable descending order is unique, so RankDesc is the order
      Python's stable sort produces. */
  lemma {:induction false} RankUnique(keys: seq<real>, a: seq<nat>, b: seq<nat>)
    requires InRange(keys, a) && InRange(keys, b)
    requires SortedAhead(keys, a) && SortedAhead(keys, b)
    requires multiset(a) == multiset(b)
    ensures a == b
  {
    if a != [] {
      assert |a| == |multiset(a)| == |b|;
      SameFirst(keys, a, b);
      DropFirst(a, b);
      RankUnique(keys, a[1..], b[1..]);
      assert a == [a[0]] + a[1..] && b == [b[0]] + b[1..];
    }
  }

  lemma SameFirst(keys: seq<real>, a: seq<nat>, b: seq<nat>)
    requires a != [] && b != [] && InRange(keys, a) && InRange(keys, b)
    requires SortedAhead(keys, a) && SortedAhead(keys, b)
    requires multiset(a) == multiset(b)
    ensures a[0] == b[0]
  {
    assert a[0] in multiset(b);
    assert b[0] in multiset(a);
    var k :| 0 <= k < |b| && b[k] == a[0];
    var m :| 0 <= m < |a| && a[m] == b[0];
    if k != 0 {
      assert Ahead(keys, b[0], a[0]);
      assert m != 0 && Ahead(keys, a[0], b[0]);
      AheadTotal(keys, a[0], b[0]);
    }
  }

  lemma DropFirst(a: seq<nat>, b: seq<nat>)
    requires a != [] && b != [] && a[0] == b[0] && multiset(a) == multiset(b)
    ensures multiset(a[1..]) == multiset(b[1..])
  {
    assert a == [a[0]] + a[1..] && b == [b[0]] + b[1..];
    assert multiset(a[1..]) == multiset(a) - multiset{a[0]};
    assert multiset(b[1..]) == multiset(b) - multiset{a[0]};
  }

  /** xs rearranged by a list of its positions. */
  function Permute<T>(xs: seq<T>, order: seq<nat>): (r: seq<T>)
    requires forall k :: 0 <= k < |order| ==> order[k] < |xs|
    ensures |r| == |order| && forall j :: 0 <= j < |order| ==> r[j] == xs[order[j]]
  {
    seq(|order|, j requires 0 <= j < |order| => xs[order[j]])
  }
}
