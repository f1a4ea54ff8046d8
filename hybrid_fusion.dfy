/** What the hybrid retriever computes, as functions: the BM25 ranking of
    `_sparse_search`, min-max normalization, and the weighted fusion and
    re-ranking of `_merge_results` (retrieval/hybrid_retriever.py).
    The class in module Hybrid is proved to compute exactly these. */
module HybridFusion {
  import opened Wrappers
  import opened Text
  import opened Records
  import opened Ranking
  import BaseRetriever

  /** `BM25Okapi(tokenized_corpus).get_scores(tokenized_query)[i]`. */
  type Bm25Scorer = (seq<seq<string>>, nat, seq<string>) -> real

  /** `text.lower().split()`. */
  function Tokenize(t: string): seq<string> {
    Split(Lower(t))
  }

  function TokenizeAll(ts: seq<string>): (r: seq<seq<string>>)
    ensures |r| == |ts| && forall i :: 0 <= i < |ts| ==> r[i] == Tokenize(ts[i])
  {
    seq(|ts|, i requires 0 <= i < |ts| => Tokenize(ts[i]))
  }

  /** `[doc.get("text", "") for doc in documents]`. */
  function CorpusOf(docs: seq<Doc>): (r: seq<string>)
    ensures |r| == |docs| && forall i :: 0 <= i < |docs| ==> r[i] == docs[i].text.GetOr("")
  {
    seq(|docs|, i requires 0 <= i < |docs| => docs[i].text.GetOr(""))
  }

  // -----------------------------------------------------------------------
  // sparse search

  function Scores(tokenized: seq<seq<string>>, scorer: Bm25Scorer, query: string): (r: seq<real>)
    ensures |r| == |tokenized|
  {
    seq(|tokenized|, i requires 0 <= i < |tokenized| => scorer(tokenized, i, Tokenize(query)))
  }

  /** The positions among xs whose score is positive, in the order of xs. */
  function KeepPositive(scores: seq<real>, xs: seq<nat>): (r: seq<nat>)
    requires InRange(scores, xs)
    ensures InRange(scores, r) && |r| <= |xs|
  {
    if xs == [] then []
    else
      var init := xs[..|xs| - 1];
      var x := xs[|xs| - 1];
      KeepPositive(scores, init) + (if scores[x] > 0.0 then [x] else [])
  }

  /** The corpus positions `_sparse_search` reports: the first top_k of the
      descending stable order, keeping only positive scores. */
  function SparseHits(scores: seq<real>, topK: int): (r: seq<nat>)
    ensures InRange(scores, r)
  {
    RankDescSorted(scores);
    KeepPositive(scores, PyTake(RankDesc(scores), topK))
  }

  /** `corpus_metadata[idx].copy()` with the BM25 score and the search type. */
  function SparseRecord(d: Doc, score: real): Doc {
    d.(score := Some(score), searchType := Some("sparse"))
  }

  function HitsOf(meta: seq<Doc>, scores: seq<real>, positions: seq<nat>): (r: seq<Doc>)
    requires |meta| == |scores| && InRange(scores, positions)
    ensures |r| == |positions|
    ensures forall j :: 0 <= j < |positions| ==> r[j] == SparseRecord(meta[positions[j]], scores[positions[j]])
  {
    seq(|positions|, j requires 0 <= j < |positions| => SparseRecord(meta[positions[j]], scores[positions[j]]))
  }

  /** The loop of `_sparse_search`, one candidate position at a time. */
  lemma HitsSnoc(meta: seq<Doc>, scores: seq<real>, top: seq<nat>, i: nat)
    requires |meta| == |scores| && InRange(scores, top) && i < |top|
    ensures HitsOf(meta, scores, KeepPositive(scores, top[..i + 1]))
            == HitsOf(meta, scores, KeepPositive(scores, top[..i]))
               + (if scores[top[i]] > 0.0 then [SparseRecord(meta[top[i]], scores[top[i]])] else [])
  {
    assert top[..i + 1][..i] == top[..i];
  }

  /** `_sparse_search(query, top_k)` over a BM25 index built from meta's texts
      (an index never built, or built from nothing, gives no results). */
  function SparseSpec(meta: seq<Doc>, scorer: Bm25Scorer, query: string, topK: int): (r: seq<Doc>)
    ensures AllScored(r) && |r| <= |meta|
  {
    if meta == [] then []
    else
      var scores := Scores(TokenizeAll(CorpusOf(meta)), scorer, query);
      SparseHitsSpec(scores, topK);
      HitsOf(meta, scores, SparseHits(scores, topK))
  }

  lemma {:induction false} KeepPositiveMembers(scores: seq<real>, xs: seq<nat>)
    requires InRange(scores, xs)
    ensures forall x :: x in KeepPositive(scores, xs) <==> x in xs && scores[x] > 0.0
  {
    if xs != [] {
      var init := xs[..|xs| - 1];
      KeepPositiveMembers(scores, init);
      assert xs == init + [xs[|xs| - 1]];
    }
  }

  /** KeepPositive keeps relative order: each kept element sits at some position
      of xs, and later kept elements at later positions. */
  predicate SubsequenceAt(r: seq<nat>, xs: seq<nat>, pos: seq<nat>) {
    |pos| == |r|
    && (forall j :: 0 <= j < |r| ==> pos[j] < |xs| && xs[pos[j]] == r[j])
    && (forall a, b :: 0 <= a < b < |r| ==> pos[a] < pos[b])
  }

  lemma {:induction false} KeepPositiveOrder(scores: seq<real>, xs: seq<nat>) returns (pos: seq<nat>)
    requires InRange(scores, xs)
    ensures SubsequenceAt(KeepPositive(scores, xs), xs, pos)
  {
    if xs == [] {
      pos := [];
    } else {
      var init := xs[..|xs| - 1];
      var x := xs[|xs| - 1];
      var p := KeepPositiveOrder(scores, init);
      if scores[x] > 0.0 {
        pos := p + [|xs| - 1];
      } else {
        pos := p;
      }
    }
  }

  /** Sparse results: at most top_k (for top_k >= 0), all with a positive score,
      in descending score order with ties in corpus order, and no positive-scored
      passage left out unless every reported one ranks ahead of it. */
  lemma SparseHitsSpec(scores: seq<real>, topK: int)
    ensures topK >= 0 ==> |SparseHits(scores, topK)| <= topK
    ensures |SparseHits(scores, topK)| <= |scores|
    ensures forall j :: 0 <= j < |SparseHits(scores, topK)| ==> scores[SparseHits(scores, topK)[j]] > 0.0
    ensures SortedAhead(scores, SparseHits(scores, topK))
    ensures topK >= 0 ==>
              forall i, j :: 0 <= i < |scores| && scores[i] > 0.0 && i !in SparseHits(scores, topK)
                             && 0 <= j < |SparseHits(scores, topK)|
                             ==> Ahead(scores, SparseHits(scores, topK)[j], i)
  {
    var rank := RankDesc(scores);
    RankDescSorted(scores);
    var top := PyTake(rank, topK);
    var hits := SparseHits(scores, topK);
    KeepPositiveMembers(scores, top);
    var pos := KeepPositiveOrder(scores, top);
    forall j | 0 <= j < |hits| ensures scores[hits[j]] > 0.0 {
      assert hits[j] in hits;
    }
    forall a, b | 0 <= a < b < |hits| ensures Ahead(scores, hits[a], hits[b]) {
      assert top[pos[a]] == rank[pos[a]] && top[pos[b]] == rank[pos[b]];
    }
    if topK >= 0 {
      forall i, j | 0 <= i < |scores| && scores[i] > 0.0 && i !in hits && 0 <= j < |hits|
        ensures Ahead(scores, hits[j], i)
      {
        assert i in rank;
        var q :| 0 <= q < |rank| && rank[q] == i;
        assert i !in top;
        assert q >= |top|;
        assert rank[pos[j]] == hits[j];
      }
    }
  }

  // -----------------------------------------------------------------------
  // min-max normalization

  function Min(xs: seq<real>): (m: real)
    requires xs != []
    ensures forall i :: 0 <= i < |xs| ==> m <= xs[i]
    ensures exists i :: 0 <= i < |xs| && xs[i] == m
  {
    if |xs| == 1 then xs[0]
    else
      var m := Min(xs[1..]);
      assert forall i :: 1 <= i < |xs| ==> xs[i] == xs[1..][i - 1];
      if xs[0] <= m then xs[0] else m
  }

  function Max(xs: seq<real>): (m: real)
    requires xs != []
    ensures forall i :: 0 <= i < |xs| ==> xs[i] <= m
    ensures exists i :: 0 <= i < |xs| && xs[i] == m
  {
    if |xs| == 1 then xs[0]
    else
      var m := Max(xs[1..]);
      assert forall i :: 1 <= i < |xs| ==> xs[i] == xs[1..][i - 1];
      if xs[0] >= m then xs[0] else m
  }

  /** Every record has the key `normalize_scores` reads with `r["score"]`. */
  predicate AllScored(docs: seq<Doc>) {
    forall i :: 0 <= i < |docs| ==> docs[i].score.Some?
  }

  function ScoreList(docs: seq<Doc>): (r: seq<real>)
    requires AllScored(docs)
    ensures |r| == |docs| && forall i :: 0 <= i < |docs| ==> r[i] == docs[i].score.value
  {
    seq(|docs|, i requires 0 <= i < |docs| => docs[i].score.value)
  }

  /** `(s - lo) / (hi - lo)` for every score s. */
  function Rescale(s: seq<real>, lo: real, hi: real): (r: seq<real>)
    requires lo < hi
    ensures |r| == |s| && forall i :: 0 <= i < |s| ==> r[i] == (s[i] - lo) / (hi - lo)
  {
    seq(|s|, i requires 0 <= i < |s| => (s[i] - lo) / (hi - lo))
  }

  /** `normalize_scores(results, "score")`: unchanged when empty or when all scores
      are equal, otherwise `score_normalized = (score - min) / (max - min)`. */
  function Normalized(docs: seq<Doc>): (r: seq<Doc>)
    requires AllScored(docs)
    ensures |r| == |docs| && AllScored(r)
  {
    if docs == [] then docs
    else
      var s := ScoreList(docs);
      if Min(s) == Max(s) then docs
      else
        var v := Rescale(s, Min(s), Max(s));
        seq(|docs|, i requires 0 <= i < |docs| => docs[i].(scoreNormalized := Some(v[i])))
  }

  lemma DivInUnit(x: real, y: real)
    requires 0.0 <= x <= y && y > 0.0
    ensures 0.0 <= x / y <= 1.0
  {
    assert x / y * y == x;
  }

  lemma DivMonotone(x: real, z: real, y: real)
    requires x <= z && y > 0.0
    ensures x / y <= z / y
  {
    assert x / y * y == x && z / y * y == z;
  }

  /** A normalized score is in [0, 1] (a record that already carried an
      out-of-range value is only possible when normalization left it alone). */
  predicate NormInUnit(d: Doc) {
    d.scoreNormalized.Some? ==> 0.0 <= d.scoreNormalized.value <= 1.0
  }

  /** Normalization changes only `score_normalized`, and nothing at all when
      there are no records or all scores are equal. */
  lemma NormalizedFrame(docs: seq<Doc>)
    requires AllScored(docs)
    ensures forall i :: 0 <= i < |docs| ==>
              Normalized(docs)[i] == docs[i].(scoreNormalized := Normalized(docs)[i].scoreNormalized)
    ensures docs == [] || Min(ScoreList(docs)) == Max(ScoreList(docs)) ==> Normalized(docs) == docs
  {
  }

  /** Rescaling scores that lie in [lo, hi] maps them monotonically onto
      [0, 1], lo to 0 and hi to 1. */
  lemma RescaleRange(s: seq<real>, lo: real, hi: real)
    requires lo < hi && forall i :: 0 <= i < |s| ==> lo <= s[i] <= hi
    ensures forall i :: 0 <= i < |s| ==> 0.0 <= Rescale(s, lo, hi)[i] <= 1.0
    ensures forall i :: 0 <= i < |s| && s[i] == lo ==> Rescale(s, lo, hi)[i] == 0.0
    ensures forall i :: 0 <= i < |s| && s[i] == hi ==> Rescale(s, lo, hi)[i] == 1.0
    ensures forall i, j :: 0 <= i < |s| && 0 <= j < |s| && s[i] <= s[j] ==>
              Rescale(s, lo, hi)[i] <= Rescale(s, lo, hi)[j]
  {
    var r := Rescale(s, lo, hi);
    forall i | 0 <= i < |s|
      ensures 0.0 <= r[i] <= 1.0
      ensures s[i] == lo ==> r[i] == 0.0
      ensures s[i] == hi ==> r[i] == 1.0
    {
      DivInUnit(s[i] - lo, hi - lo);
      if s[i] == hi {
        DivSelf(hi - lo);
      }
    }
    forall i, j | 0 <= i < |s| && 0 <= j < |s| && s[i] <= s[j] ensures r[i] <= r[j] {
      DivMonotone(s[i] - lo, s[j] - lo, hi - lo);
    }
  }

  lemma MinBelowMax(s: seq<real>)
    requires s != [] && Min(s) != Max(s)
    ensures Min(s) < Max(s) && forall i :: 0 <= i < |s| ==> Min(s) <= s[i] <= Max(s)
  {
    assert Min(s) <= s[0] <= Max(s);
  }

  lemma DivSelf(y: real)
    requires y > 0.0
    ensures y / y == 1.0
  {
  }

  /** When scores differ, normalization maps them monotonically onto [0, 1],
      the lowest to 0 and the highest to 1. */
  lemma NormalizedRange(docs: seq<Doc>)
    requires AllScored(docs) && docs != [] && Min(ScoreList(docs)) != Max(ScoreList(docs))
    ensures forall i :: 0 <= i < |docs| ==>
              Normalized(docs)[i].scoreNormalized
              == Some(Rescale(ScoreList(docs), Min(ScoreList(docs)), Max(ScoreList(docs)))[i])
    ensures forall i :: 0 <= i < |docs| ==> NormInUnit(Normalized(docs)[i])
    ensures forall i :: 0 <= i < |docs| && docs[i].score.value == Min(ScoreList(docs)) ==>
              Normalized(docs)[i].scoreNormalized == Some(0.0)
    ensures forall i :: 0 <= i < |docs| && docs[i].score.value == Max(ScoreList(docs)) ==>
              Normalized(docs)[i].scoreNormalized == Some(1.0)
    ensures forall i, j :: 0 <= i < |docs| && 0 <= j < |docs| && docs[i].score.value <= docs[j].score.value ==>
              Normalized(docs)[i].scoreNormalized.value <= Normalized(docs)[j].scoreNormalized.value
  {
    var s := ScoreList(docs);
    MinBelowMax(s);
    RescaleRange(s, Min(s), Max(s));
  }

  /** Records whose normalized score, if any, lies in [0, 1] keep that after
      normalization. */
  lemma NormalizedInUnit(docs: seq<Doc>)
    requires AllScored(docs) && forall i :: 0 <= i < |docs| ==> NormInUnit(docs[i])
    ensures forall i :: 0 <= i < |docs| ==> NormInUnit(Normalized(docs)[i])
  {
    NormalizedFrame(docs);
    if docs != [] && Min(ScoreList(docs)) != Max(ScoreList(docs)) {
      NormalizedRange(docs);
    }
  }

  // -----------------------------------------------------------------------
  // fusion

  /** `result.get("id", "")`. */
  function IdOf(d: Doc): string {
    d.id.GetOr("")
  }

  /** `result.get("score_normalized", 0)`. */
  function NormOf(d: Doc): real {
    d.scoreNormalized.GetOr(0.0)
  }

  /** `result.get("score_normalized", 0) * weight`. */
  function Weighted(d: Doc, w: real): real {
    NormOf(d) * w
  }

  /** `result.get("score", 0)`. */
  function RawOf(d: Doc): real {
    d.score.GetOr(0.0)
  }

  /** `x["hybrid_score"]`, always present on merged entries. */
  function HybridOf(d: Doc): real {
    d.hybridScore.GetOr(0.0)
  }

  function Ids(ds: seq<Doc>): (r: seq<string>)
    ensures |r| == |ds| && forall i :: 0 <= i < |ds| ==> r[i] == IdOf(ds[i])
  {
    seq(|ds|, i requires 0 <= i < |ds| => IdOf(ds[i]))
  }

  /** The keys of a dict filled with xs in order: first occurrences, in order. */
  function Dedup(xs: seq<string>): (r: seq<string>)
    ensures forall x :: x in r <==> x in xs
    ensures Distinct(r) && |r| <= |xs|
  {
    if xs == [] then []
    else
      var init := Dedup(xs[..|xs| - 1]);
      var x := xs[|xs| - 1];
      assert xs == xs[..|xs| - 1] + [x];
      if x in init then init else init + [x]
  }

  /** The last record with id k. */
  function LastWith(ds: seq<Doc>, k: string): (r: Option<Doc>)
    ensures r.Some? <==> k in Ids(ds)
    ensures r.Some? ==> IdOf(r.value) == k && r.value in ds
  {
    if ds == [] then None
    else
      var init := ds[..|ds| - 1];
      assert Ids(ds) == Ids(init) + [IdOf(ds[|ds| - 1])];
      if IdOf(ds[|ds| - 1]) == k then Some(ds[|ds| - 1]) else LastWith(init, k)
  }

  /** The first record with id k. */
  function FirstWith(ds: seq<Doc>, k: string): (r: Option<Doc>)
    ensures r.Some? <==> k in Ids(ds)
    ensures r.Some? ==> IdOf(r.value) == k && r.value in ds
  {
    if ds == [] then None
    else
      var init := ds[..|ds| - 1];
      assert Ids(ds) == Ids(init) + [IdOf(ds[|ds| - 1])];
      var first := FirstWith(init, k);
      if first.Some? then first
      else if IdOf(ds[|ds| - 1]) == k then Some(ds[|ds| - 1])
      else None
  }

  /** The sparse contributions `+= score_normalized * weight` made to key k. */
  function SumWeighted(ds: seq<Doc>, k: string, w: real): real {
    if ds == [] then 0.0
    else
      var d := ds[|ds| - 1];
      SumWeighted(ds[..|ds| - 1], k, w) + (if IdOf(d) == k then Weighted(d, w) else 0.0)
  }

  /** The entry `_merge_results` holds for key k once both loops have run: the
      last dense record with that id (or else the first sparse one), its fused
      score, and the raw dense and sparse scores it saw last. */
  function Entry(dense: seq<Doc>, sparse: seq<Doc>, dw: real, sw: real, k: string): Doc {
    var sparseSum := SumWeighted(sparse, k, sw);
    var sparseScore := match LastWith(sparse, k) case Some(s) => RawOf(s) case None => 0.0;
    match LastWith(dense, k)
    case Some(d) =>
      d.(hybridScore := Some(Weighted(d, dw) + sparseSum), denseScore := Some(RawOf(d)), sparseScore := Some(sparseScore))
    case None =>
      match FirstWith(sparse, k)
      case Some(s) => s.(hybridScore := Some(sparseSum), denseScore := Some(0.0), sparseScore := Some(sparseScore))
      case None => NoKeys
  }

  /** `list(combined.values())`, in insertion order. */
  function Combined(dense: seq<Doc>, sparse: seq<Doc>, dw: real, sw: real): (r: seq<Doc>)
    ensures |r| == |Dedup(Ids(dense) + Ids(sparse))|
  {
    var keys := Dedup(Ids(dense) + Ids(sparse));
    seq(|keys|, i requires 0 <= i < |keys| => Entry(dense, sparse, dw, sw, keys[i]))
  }

  function HybridKeys(ds: seq<Doc>): (r: seq<real>)
    ensures |r| == |ds| && forall i :: 0 <= i < |ds| ==> r[i] == HybridOf(ds[i])
  {
    seq(|ds|, i requires 0 <= i < |ds| => HybridOf(ds[i]))
  }

  /** `merged.sort(key=hybrid_score, reverse=True)`: stable, highest first. */
  function SortByHybrid(ds: seq<Doc>): (r: seq<Doc>)
    ensures |r| == |ds|
  {
    var order := RankDesc(HybridKeys(ds));
    Permute(ds, order)
  }

  /** `_merge_results(dense_results, sparse_results)` applied to already
      normalized inputs. */
  function Fuse(dense: seq<Doc>, sparse: seq<Doc>, dw: real, sw: real): seq<Doc> {
    SortByHybrid(Combined(dense, sparse, dw, sw))
  }

  /** `_merge_results(dense_results, sparse_results)`. */
  function MergeSpec(dense: seq<Doc>, sparse: seq<Doc>, dw: real, sw: real): seq<Doc>
    requires AllScored(dense) && AllScored(sparse)
  {
    Fuse(Normalized(dense), Normalized(sparse), dw, sw)
  }

  /** Steps 5-6 of `retrieve`: the first k merged entries with `score` set to the
      fused score, in the standard five-key format. */
  function FinalResults(merged: seq<Doc>, k: int): (r: seq<Doc>)
    ensures |r| == |PyTake(merged, k)|
  {
    var top := PyTake(merged, k);
    seq(|top|, i requires 0 <= i < |top| => BaseRetriever.FormatOne(Rescored(top[i])))
  }

  /** `result["score"] = result.get("hybrid_score", result.get("score", 0))`. */
  function Rescored(d: Doc): Doc {
    d.(score := Some(d.hybridScore.GetOr(d.score.GetOr(0.0))))
  }
}
