/** What the fusion of `_merge_results` guarantees (retrieval/hybrid_retriever.py):
    one entry per id, a stable descending order whose ties follow first
    appearance, fused scores within [0, dense_weight + sparse_weight] when no
    id repeats among the sparse hits, and a zero contribution from a side
    whose scores were all equal. */
module FusionProperties {
  import opened Wrappers
  import opened Records
  import opened Ranking
  import opened HybridFusion

  /** The position of the first occurrence of x. */
  function IndexOf(xs: seq<string>, x: string): (r: nat)
    requires x in xs
    ensures r < |xs| && xs[r] == x && x !in xs[..r]
  {
    if xs[0] == x then 0
    else
      var r := IndexOf(xs[1..], x);
      assert xs[1..][..r] == xs[1..r + 1];
      1 + r
  }

  lemma IndexOfUnique(xs: seq<string>, x: string, r: nat)
    requires r < |xs| && xs[r] == x && x !in xs[..r]
    ensures IndexOf(xs, x) == r
  {
    var q := IndexOf(xs, x);
  }

  /** Appending leaves the first occurrence of an element already present alone. */
  lemma IndexOfSnoc(xs: seq<string>, y: string, x: string)
    requires x in xs
    ensures IndexOf(xs + [y], x) == IndexOf(xs, x)
  {
    var r := IndexOf(xs, x);
    assert (xs + [y])[..r] == xs[..r];
    IndexOfUnique(xs + [y], x, r);
  }

  /** Dedup lists ids in the order of their first occurrence. */
  lemma {:induction false} DedupFirstOccurrence(xs: seq<string>)
    ensures forall p, q :: 0 <= p < q < |Dedup(xs)| ==> IndexOf(xs, Dedup(xs)[p]) < IndexOf(xs, Dedup(xs)[q])
  {
    if xs != [] {
      var init, x := xs[..|xs| - 1], xs[|xs| - 1];
      assert xs == init + [x];
      DedupFirstOccurrence(init);
      var d := Dedup(init);
      forall y | y in init ensures IndexOf(xs, y) == IndexOf(init, y) {
        IndexOfSnoc(init, x, y);
      }
      if x !in d {
        assert x !in init;
        assert xs[..|init|] == init;
        IndexOfUnique(xs, x, |init|);
        forall p | 0 <= p < |d| ensures IndexOf(xs, d[p]) < IndexOf(xs, x) {
          assert d[p] in init;
        }
      }
    }
  }

  /** The entry for a key that occurs in either list carries that key as its id
      and always has a fused score. */
  lemma EntryId(dense: seq<Doc>, sparse: seq<Doc>, dw: real, sw: real, k: string)
    requires k in Ids(dense) + Ids(sparse)
    ensures IdOf(Entry(dense, sparse, dw, sw, k)) == k
    ensures Entry(dense, sparse, dw, sw, k).hybridScore.Some?
  {
    assert k in Ids(dense) || k in Ids(sparse);
  }

  lemma CombinedIds(dense: seq<Doc>, sparse: seq<Doc>, dw: real, sw: real)
    ensures Ids(Combined(dense, sparse, dw, sw)) == Dedup(Ids(dense) + Ids(sparse))
    ensures forall i :: 0 <= i < |Combined(dense, sparse, dw, sw)| ==> Combined(dense, sparse, dw, sw)[i].hybridScore.Some?
  {
    var keys := Dedup(Ids(dense) + Ids(sparse));
    forall i | 0 <= i < |keys|
      ensures IdOf(Combined(dense, sparse, dw, sw)[i]) == keys[i]
      ensures Combined(dense, sparse, dw, sw)[i].hybridScore.Some?
    {
      EntryId(dense, sparse, dw, sw, keys[i]);
    }
  }

  /** `merged.sort(key=hybrid_score, reverse=True)` rearranges the entries: every
      position is used once, scores do not increase, and equal scores keep
      their original order. */
  lemma SortByHybridOrder(ds: seq<Doc>) returns (order: seq<nat>)
    ensures |order| == |ds| && forall j :: 0 <= j < |ds| ==> order[j] < |ds|
    ensures Distinct(order) && forall i :: 0 <= i < |ds| ==> i in order
    ensures forall j :: 0 <= j < |ds| ==> SortByHybrid(ds)[j] == ds[order[j]]
    ensures forall a, b :: 0 <= a < b < |ds| ==>
              (HybridOf(SortByHybrid(ds)[a]) > HybridOf(SortByHybrid(ds)[b])
               || (HybridOf(SortByHybrid(ds)[a]) == HybridOf(SortByHybrid(ds)[b]) && order[a] < order[b]))
  {
    var keys := HybridKeys(ds);
    order := RankDesc(keys);
    RankDescSorted(keys);
    forall a, b | 0 <= a < b < |order| ensures order[a] != order[b] {
      assert Ahead(keys, order[a], order[b]);
    }
  }

  /** The merged list is the combined entries rearranged: entry j is the
      entry of the order[j]-th distinct id. */
  lemma FuseKeys(dense: seq<Doc>, sparse: seq<Doc>, dw: real, sw: real) returns (order: seq<nat>)
    ensures |order| == |Fuse(dense, sparse, dw, sw)| == |Dedup(Ids(dense) + Ids(sparse))|
    ensures Distinct(order) && forall i :: 0 <= i < |order| ==> i in order
    ensures forall j :: 0 <= j < |order| ==>
              order[j] < |order| && IdOf(Fuse(dense, sparse, dw, sw)[j]) == Dedup(Ids(dense) + Ids(sparse))[order[j]]
  {
    var c := Combined(dense, sparse, dw, sw);
    CombinedIds(dense, sparse, dw, sw);
    order := SortByHybridOrder(c);
    forall j | 0 <= j < |order| ensures IdOf(Fuse(dense, sparse, dw, sw)[j]) == Ids(c)[order[j]] {
    }
  }

  /** Where a position occurs in an arrangement. */
  lemma PositionOf(order: seq<nat>, i: nat) returns (j: nat)
    requires i in order
    ensures j < |order| && order[j] == i
  {
    j :| 0 <= j < |order| && order[j] == i;
  }

  /** Every merged entry carries a fused score. */
  lemma FuseScored(dense: seq<Doc>, sparse: seq<Doc>, dw: real, sw: real)
    ensures forall j :: 0 <= j < |Fuse(dense, sparse, dw, sw)| ==> Fuse(dense, sparse, dw, sw)[j].hybridScore.Some?
  {
    CombinedIds(dense, sparse, dw, sw);
    var order := SortByHybridOrder(Combined(dense, sparse, dw, sw));
  }

  /** The merged list holds exactly one entry per id seen in either list. */
  lemma FuseOnePerId(dense: seq<Doc>, sparse: seq<Doc>, dw: real, sw: real)
    ensures Distinct(Ids(Fuse(dense, sparse, dw, sw)))
    ensures forall x :: x in Ids(Fuse(dense, sparse, dw, sw)) <==> x in Ids(dense) || x in Ids(sparse)
    ensures |Fuse(dense, sparse, dw, sw)| <= |dense| + |sparse|
  {
    var f := Fuse(dense, sparse, dw, sw);
    var xs := Ids(dense) + Ids(sparse);
    var keys := Dedup(xs);
    var order := FuseKeys(dense, sparse, dw, sw);
    forall a, b | 0 <= a < b < |f| ensures Ids(f)[a] != Ids(f)[b] {
      assert keys[order[a]] != keys[order[b]];
    }
    forall x ensures x in Ids(f) <==> x in xs {
      if x in keys {
        var i :| 0 <= i < |keys| && keys[i] == x;
        var j := PositionOf(order, i);
        assert Ids(f)[j] == x;
      }
      if x in Ids(f) {
        var j :| 0 <= j < |f| && Ids(f)[j] == x;
        assert keys[order[j]] in keys;
      }
    }
  }

  /** The merged list is sorted by fused score, highest first; entries with
      equal fused scores keep the order in which their ids first appeared, dense
      records before sparse-only ones. */
  lemma FuseRanking(dense: seq<Doc>, sparse: seq<Doc>, dw: real, sw: real)
    ensures forall a, b :: 0 <= a < b < |Fuse(dense, sparse, dw, sw)| ==>
              HybridOf(Fuse(dense, sparse, dw, sw)[a]) >= HybridOf(Fuse(dense, sparse, dw, sw)[b])
    ensures forall a, b :: (0 <= a < b < |Fuse(dense, sparse, dw, sw)|
              && HybridOf(Fuse(dense, sparse, dw, sw)[a]) == HybridOf(Fuse(dense, sparse, dw, sw)[b])) ==>
              IdOf(Fuse(dense, sparse, dw, sw)[a]) in Ids(dense) + Ids(sparse)
              && IdOf(Fuse(dense, sparse, dw, sw)[b]) in Ids(dense) + Ids(sparse)
              && IndexOf(Ids(dense) + Ids(sparse), IdOf(Fuse(dense, sparse, dw, sw)[a]))
                 < IndexOf(Ids(dense) + Ids(sparse), IdOf(Fuse(dense, sparse, dw, sw)[b]))
  {
    var xs := Ids(dense) + Ids(sparse);
    var c := Combined(dense, sparse, dw, sw);
    var f := Fuse(dense, sparse, dw, sw);
    var keys := Dedup(xs);
    CombinedIds(dense, sparse, dw, sw);
    DedupFirstOccurrence(xs);
    var order := SortByHybridOrder(c);
    forall a, b | 0 <= a < b < |f| && HybridOf(f[a]) == HybridOf(f[b])
      ensures IdOf(f[a]) in xs && IdOf(f[b]) in xs && IndexOf(xs, IdOf(f[a])) < IndexOf(xs, IdOf(f[b]))
    {
      assert IdOf(f[a]) == Ids(c)[order[a]] == keys[order[a]];
      assert IdOf(f[b]) == Ids(c)[order[b]] == keys[order[b]];
      assert keys[order[a]] in keys && keys[order[b]] in keys;
    }
  }

  lemma MulInUnit(n: real, w: real)
    requires 0.0 <= n <= 1.0 && 0.0 <= w
    ensures 0.0 <= n * w <= w
  {
    assert (1.0 - n) * w >= 0.0;
  }

  lemma WeightedInRange(d: Doc, w: real)
    requires NormInUnit(d) && 0.0 <= w
    ensures 0.0 <= Weighted(d, w) <= w
  {
    MulInUnit(NormOf(d), w);
  }

  /** With no id repeated among the sparse records, an id collects at most one
      sparse contribution. */
  lemma {:induction false} SumWeightedInRange(ds: seq<Doc>, k: string, w: real)
    requires Distinct(Ids(ds)) && 0.0 <= w
    requires forall i :: 0 <= i < |ds| ==> NormInUnit(ds[i])
    ensures 0.0 <= SumWeighted(ds, k, w) <= w
  {
    if ds != [] {
      var init, d := ds[..|ds| - 1], ds[|ds| - 1];
      assert Ids(ds) == Ids(init) + [IdOf(d)];
      assert Distinct(Ids(init)) by {
        forall a, b | 0 <= a < b < |init| ensures Ids(init)[a] != Ids(init)[b] {
          assert Ids(ds)[a] != Ids(ds)[b];
        }
      }
      WeightedInRange(d, w);
      if IdOf(d) == k {
        forall i | 0 <= i < |init| ensures Ids(init)[i] != k {
          assert Ids(ds)[i] != Ids(ds)[|ds| - 1];
        }
        SumWeightedZero(init, k, w);
      } else {
        SumWeightedInRange(init, k, w);
      }
    }
  }

  lemma {:induction false} SumWeightedZero(ds: seq<Doc>, k: string, w: real)
    requires k !in Ids(ds)
    ensures SumWeighted(ds, k, w) == 0.0
  {
    if ds != [] {
      var init := ds[..|ds| - 1];
      assert Ids(ds) == Ids(init) + [IdOf(ds[|ds| - 1])];
      SumWeightedZero(init, k, w);
    }
  }

  /** Every fused score lies in [0, dense_weight + sparse_weight] when the
      normalized scores lie in [0, 1] and no id repeats among the sparse records. */
  lemma FusedScoreBounds(dense: seq<Doc>, sparse: seq<Doc>, dw: real, sw: real)
    requires 0.0 <= dw && 0.0 <= sw && Distinct(Ids(sparse))
    requires forall i :: 0 <= i < |dense| ==> NormInUnit(dense[i])
    requires forall i :: 0 <= i < |sparse| ==> NormInUnit(sparse[i])
    ensures forall j :: 0 <= j < |Fuse(dense, sparse, dw, sw)| ==>
              0.0 <= HybridOf(Fuse(dense, sparse, dw, sw)[j]) <= dw + sw
  {
    var c := Combined(dense, sparse, dw, sw);
    var keys := Dedup(Ids(dense) + Ids(sparse));
    forall i | 0 <= i < |c| ensures 0.0 <= HybridOf(c[i]) <= dw + sw {
      var k := keys[i];
      SumWeightedInRange(sparse, k, sw);
      match LastWith(dense, k)
      case Some(d) =>
        assert d in dense;
        WeightedInRange(d, dw);
      case None =>
    }
    var order := SortByHybridOrder(c);
  }

  /** Normalization keeps ids and leaves in-range normalized scores in range. */
  lemma NormalizedIds(docs: seq<Doc>)
    requires AllScored(docs)
    ensures Ids(Normalized(docs)) == Ids(docs)
  {
    NormalizedFrame(docs);
  }

  /** The same bound on `_merge_results` itself, for search results that carry
      no normalized score of their own (or one within [0, 1]). */
  lemma MergedScoreBounds(dense: seq<Doc>, sparse: seq<Doc>, dw: real, sw: real)
    requires AllScored(dense) && AllScored(sparse)
    requires 0.0 <= dw && 0.0 <= sw && Distinct(Ids(sparse))
    requires forall i :: 0 <= i < |dense| ==> NormInUnit(dense[i])
    requires forall i :: 0 <= i < |sparse| ==> NormInUnit(sparse[i])
    ensures forall j :: 0 <= j < |MergeSpec(dense, sparse, dw, sw)| ==>
              0.0 <= HybridOf(MergeSpec(dense, sparse, dw, sw)[j]) <= dw + sw
  {
    NormalizedInUnit(dense);
    NormalizedInUnit(sparse);
    NormalizedIds(sparse);
    FusedScoreBounds(Normalized(dense), Normalized(sparse), dw, sw);
  }

  /** A side none of whose records has a normalized score adds 0 to every fused
      score: the dense side leaves each entry's score to the sparse sum. */
  lemma UnnormalizedDenseAddsNothing(dense: seq<Doc>, sparse: seq<Doc>, dw: real, sw: real)
    requires forall i :: 0 <= i < |dense| ==> dense[i].scoreNormalized.None?
    ensures forall j :: 0 <= j < |Fuse(dense, sparse, dw, sw)| ==>
              HybridOf(Fuse(dense, sparse, dw, sw)[j]) == SumWeighted(sparse, IdOf(Fuse(dense, sparse, dw, sw)[j]), sw)
  {
    var c := Combined(dense, sparse, dw, sw);
    var keys := Dedup(Ids(dense) + Ids(sparse));
    CombinedIds(dense, sparse, dw, sw);
    forall i | 0 <= i < |c| ensures HybridOf(c[i]) == SumWeighted(sparse, IdOf(c[i]), sw) {
      var k := keys[i];
      assert IdOf(c[i]) == Ids(c)[i] == k;
      match LastWith(dense, k)
      case Some(d) =>
        assert d in dense;
        assert Weighted(d, dw) == 0.0 * dw == 0.0;
      case None =>
    }
    var order := SortByHybridOrder(c);
  }

  /** Likewise for the sparse side: each fused score is the dense part alone. */
  lemma UnnormalizedSparseAddsNothing(dense: seq<Doc>, sparse: seq<Doc>, dw: real, sw: real)
    requires forall i :: 0 <= i < |sparse| ==> sparse[i].scoreNormalized.None?
    ensures forall j :: 0 <= j < |Fuse(dense, sparse, dw, sw)| ==>
              HybridOf(Fuse(dense, sparse, dw, sw)[j])
              == match LastWith(dense, IdOf(Fuse(dense, sparse, dw, sw)[j]))
                 case Some(d) => Weighted(d, dw)
                 case None => 0.0
  {
    var c := Combined(dense, sparse, dw, sw);
    var keys := Dedup(Ids(dense) + Ids(sparse));
    CombinedIds(dense, sparse, dw, sw);
    forall i | 0 <= i < |c|
      ensures HybridOf(c[i]) == match LastWith(dense, IdOf(c[i])) case Some(d) => Weighted(d, dw) case None => 0.0
    {
      var k := keys[i];
      assert IdOf(c[i]) == Ids(c)[i] == k;
      SumWeightedUnnormalized(sparse, k, sw);
    }
    var order := SortByHybridOrder(c);
  }

  lemma {:induction false} SumWeightedUnnormalized(ds: seq<Doc>, k: string, w: real)
    requires forall i :: 0 <= i < |ds| ==> ds[i].scoreNormalized.None?
    ensures SumWeighted(ds, k, w) == 0.0
  {
    if ds != [] {
      var d := ds[|ds| - 1];
      SumWeightedUnnormalized(ds[..|ds| - 1], k, w);
      assert Weighted(d, w) == 0.0 * w == 0.0;
    }
  }

  /** All dense scores equal (a single dense result, say): normalization leaves
      them alone and the dense side contributes 0 to every fused score. */
  lemma EqualDenseScoresAddNothing(dense: seq<Doc>, sparse: seq<Doc>, dw: real, sw: real)
    requires AllScored(dense) && AllScored(sparse)
    requires forall i, j :: 0 <= i < |dense| && 0 <= j < |dense| ==> dense[i].score == dense[j].score
    requires forall i :: 0 <= i < |dense| ==> dense[i].scoreNormalized.None?
    ensures forall j :: 0 <= j < |MergeSpec(dense, sparse, dw, sw)| ==>
              HybridOf(MergeSpec(dense, sparse, dw, sw)[j])
              == SumWeighted(Normalized(sparse), IdOf(MergeSpec(dense, sparse, dw, sw)[j]), sw)
  {
    if dense != [] {
      var s := ScoreList(dense);
      var lo := Min(s);
      var hi := Max(s);
      var p :| 0 <= p < |s| && s[p] == lo;
      var q :| 0 <= q < |s| && s[q] == hi;
      assert dense[p].score == dense[q].score;
    }
    NormalizedFrame(dense);
    UnnormalizedDenseAddsNothing(dense, Normalized(sparse), dw, sw);
  }

  /** Records without an id all fall under the key "". */
  lemma IdlessKeys(dense: seq<Doc>, sparse: seq<Doc>)
    requires forall i :: 0 <= i < |dense| ==> dense[i].id.None?
    requires forall i :: 0 <= i < |sparse| ==> sparse[i].id.None?
    ensures Dedup(Ids(dense) + Ids(sparse)) == if dense + sparse == [] then [] else [""]
  {
    var xs := Ids(dense) + Ids(sparse);
    forall i | 0 <= i < |xs| ensures xs[i] == "" {
      if i < |dense| {
        assert xs[i] == Ids(dense)[i];
      } else {
        assert xs[i] == Ids(sparse)[i - |dense|];
      }
    }
    DedupConstant(xs, "");
  }

  /** Records without an id therefore collapse into a single merged entry. */
  lemma IdlessRecordsCollapse(dense: seq<Doc>, sparse: seq<Doc>, dw: real, sw: real)
    requires forall i :: 0 <= i < |dense| ==> dense[i].id.None?
    requires forall i :: 0 <= i < |sparse| ==> sparse[i].id.None?
    ensures |Fuse(dense, sparse, dw, sw)| <= 1
  {
    IdlessKeys(dense, sparse);
  }

  /** A list of one repeated id deduplicates to that id alone. */
  lemma {:induction false} DedupConstant(xs: seq<string>, c: string)
    requires forall i :: 0 <= i < |xs| ==> xs[i] == c
    ensures Dedup(xs) == if xs == [] then [] else [c]
  {
    if xs != [] {
      DedupConstant(xs[..|xs| - 1], c);
    }
  }

  /** Two id-less dense hits scored 1 and 2 normalize to 0 and 1. */
  lemma WitnessDense()
    ensures Normalized([NoKeys.(score := Some(1.0)), NoKeys.(score := Some(2.0))])
            == [NoKeys.(score := Some(1.0), scoreNormalized := Some(0.0)),
                NoKeys.(score := Some(2.0), scoreNormalized := Some(1.0))]
  {
    var s := ScoreList([NoKeys.(score := Some(1.0)), NoKeys.(score := Some(2.0))]);
    assert s == [1.0, 2.0];
    assert Min(s) == 1.0 && Max(s) == 2.0;
  }

  /** Three id-less sparse hits scored 3, 2 and 1 normalize to 1, 0.5 and 0. */
  lemma WitnessSparse()
    ensures Normalized([NoKeys.(score := Some(3.0)), NoKeys.(score := Some(2.0)), NoKeys.(score := Some(1.0))])
            == [NoKeys.(score := Some(3.0), scoreNormalized := Some(1.0)),
                NoKeys.(score := Some(2.0), scoreNormalized := Some(0.5)),
                NoKeys.(score := Some(1.0), scoreNormalized := Some(0.0))]
  {
    var s := ScoreList([NoKeys.(score := Some(3.0)), NoKeys.(score := Some(2.0)), NoKeys.(score := Some(1.0))]);
    assert s == [3.0, 2.0, 1.0];
    assert Min(s) == 1.0 && Max(s) == 3.0;
  }

  lemma WitnessSum()
    ensures SumWeighted([NoKeys.(score := Some(3.0), scoreNormalized := Some(1.0)),
                         NoKeys.(score := Some(2.0), scoreNormalized := Some(0.5)),
                         NoKeys.(score := Some(1.0), scoreNormalized := Some(0.0))], "", 0.3) == 0.45
  {
    var ns := [NoKeys.(score := Some(3.0), scoreNormalized := Some(1.0)),
               NoKeys.(score := Some(2.0), scoreNormalized := Some(0.5)),
               NoKeys.(score := Some(1.0), scoreNormalized := Some(0.0))];
    assert ns[..2][..1] == ns[..1] && ns[..1][..0] == [];
    assert SumWeighted(ns[..1], "", 0.3) == 0.3;
    assert SumWeighted(ns[..2], "", 0.3) == 0.45;
  }

  /** Two records sharing an id on the sparse side both add to the same entry,
      so the bound above needs distinct sparse ids: with the default weights,
      two id-less dense hits and three id-less sparse hits fuse to 1.15. */
  lemma RepeatedSparseIdsExceedBound()
    ensures var dense := [NoKeys.(score := Some(1.0)), NoKeys.(score := Some(2.0))];
            var sparse := [NoKeys.(score := Some(3.0)), NoKeys.(score := Some(2.0)), NoKeys.(score := Some(1.0))];
            |MergeSpec(dense, sparse, 0.7, 0.3)| == 1
            && HybridOf(MergeSpec(dense, sparse, 0.7, 0.3)[0]) == 1.15 > 0.7 + 0.3
  {
    WitnessDense();
    WitnessSparse();
    var nd := [NoKeys.(score := Some(1.0), scoreNormalized := Some(0.0)),
               NoKeys.(score := Some(2.0), scoreNormalized := Some(1.0))];
    var ns := [NoKeys.(score := Some(3.0), scoreNormalized := Some(1.0)),
               NoKeys.(score := Some(2.0), scoreNormalized := Some(0.5)),
               NoKeys.(score := Some(1.0), scoreNormalized := Some(0.0))];
    IdlessKeys(nd, ns);
    WitnessSum();
    assert LastWith(nd, "") == Some(nd[1]);
    var c := Combined(nd, ns, 0.7, 0.3);
    assert |c| == 1 && HybridOf(c[0]) == 1.15;
    var order := SortByHybridOrder(c);
  }
}
