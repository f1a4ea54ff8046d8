/** What a call of `HybridRetriever.retrieve` (retrieval/hybrid_retriever.py)
    guarantees to its caller: at most top_k formatted results ordered by fused
    score, ValueError only from validation and SearchError for everything the
    `try` catches; and the stale-corpus behaviour of `_initialize_bm25`. */
module RetrieveProperties {
  import opened Wrappers
  import opened Errors
  import opened Records
  import opened Ranking
  import opened Text
  import opened HybridFusion
  import opened FusionProperties
  import BaseRetriever
  import Hybrid

  /** The truncation and rescoring of steps 5-6: at most k results, each in
      the standard format, each scored with its fused score, in merged order. */
  lemma FinalResultsShape(merged: seq<Doc>, k: int)
    requires forall j :: 0 <= j < |merged| ==> merged[j].hybridScore.Some?
    ensures k >= 0 ==> |FinalResults(merged, k)| <= k
    ensures |FinalResults(merged, k)| <= |merged|
    ensures forall j :: 0 <= j < |FinalResults(merged, k)| ==>
              BaseRetriever.IsFormatted(FinalResults(merged, k)[j])
              && FinalResults(merged, k)[j].score == Some(HybridOf(merged[j]))
              && FinalResults(merged, k)[j].text == Some(merged[j].text.GetOr(""))
              && FinalResults(merged, k)[j].videoId == Some(merged[j].videoId.GetOr("unknown"))
  {
  }

  /** A successful `retrieve` returns at most k results (k the override or the
      configured top_k), each with only the five standard keys, ordered by
      score, highest first. */
  lemma RetrieveResultsShape(h: Hybrid.HybridRetriever, meta: seq<Doc>, query: string,
                             topK: Option<int>, filter: Option<Filter>)
    ensures h.RetrieveSpec(meta, query, topK, filter).Success? ==>
              var rs := h.RetrieveSpec(meta, query, topK, filter).value;
              (BaseRetriever.GetTopK(topK, h.topK) >= 0 ==> |rs| <= BaseRetriever.GetTopK(topK, h.topK))
              && (forall j :: 0 <= j < |rs| ==> BaseRetriever.IsFormatted(rs[j]))
              && (forall a, b :: 0 <= a < b < |rs| ==> rs[a].score.value >= rs[b].score.value)
  {
    var r := h.RetrieveSpec(meta, query, topK, filter);
    if r.Success? {
      var k := BaseRetriever.GetTopK(topK, h.topK);
      var dense := h.denseRetriever(query, Some(k * 2), filter).value;
      var sparse := SparseSpec(if dense == [] then meta else dense, h.scorer, query, k * 2);
      var nd, ns := Normalized(dense), Normalized(sparse);
      var merged := Fuse(nd, ns, h.denseWeight, h.sparseWeight);
      assert r.value == FinalResults(merged, k);
      FuseScored(nd, ns, h.denseWeight, h.sparseWeight);
      FuseRanking(nd, ns, h.denseWeight, h.sparseWeight);
      FinalResultsShape(merged, k);
    }
  }

  /** A query that fails validation ends in that ValueError, before the dense
      search, and leaves the corpus alone. */
  lemma ValidationErrors(h: Hybrid.HybridRetriever, meta: seq<Doc>, query: string,
                         topK: Option<int>, filter: Option<Filter>)
    requires BaseRetriever.ValidateQuery(query).Failure?
    ensures h.RetrieveSpec(meta, query, topK, filter) == Failure(BaseRetriever.ValidateQuery(query).error)
    ensures h.RetrieveSpec(meta, query, topK, filter).error.kind == ValueError
    ensures h.MetaAfter(meta, query, topK, filter) == meta
  {
  }

  /** Once validation passes, every failure is a SearchError (a RetrievalError),
      whatever the dense retriever raised. */
  lemma SearchErrors(h: Hybrid.HybridRetriever, meta: seq<Doc>, query: string,
                     topK: Option<int>, filter: Option<Filter>)
    requires BaseRetriever.ValidateQuery(query).Success?
    ensures h.RetrieveSpec(meta, query, topK, filter).Failure? ==>
              h.RetrieveSpec(meta, query, topK, filter).error.kind == SearchError
              && IsA(h.RetrieveSpec(meta, query, topK, filter).error.kind, RetrievalError)
  {
    var k := BaseRetriever.GetTopK(topK, h.topK);
    match h.denseRetriever(query, Some(k * 2), filter)
    case Failure(e) =>
    case Success(dense) =>
      assert h.StepsSpec(meta, query, k, dense).Failure? ==>
               h.StepsSpec(meta, query, k, dense).error.kind == SearchError;
  }

  /** With at least one positive score and room for one hit, the lexical
      search finds something. */
  lemma SparseHitsNonEmpty(scores: seq<real>, topK: int, i: nat)
    requires i < |scores| && scores[i] > 0.0 && topK >= 1
    ensures SparseHits(scores, topK) != []
  {
    var rank := RankDesc(scores);
    RankDescSorted(scores);
    assert i in rank;
    var q := PositionOf(rank, i);
    assert scores[rank[0]] >= scores[i] by {
      if q != 0 {
        assert Ahead(scores, rank[0], rank[q]);
      }
    }
    var top := PyTake(rank, topK);
    assert top[0] == rank[0];
    KeepPositiveMembers(scores, top);
    assert rank[0] in KeepPositive(scores, top);
  }

  /** Merging nothing with some sparse hits leaves at least one entry. */
  lemma MergeNonEmpty(sparse: seq<Doc>, dw: real, sw: real)
    requires AllScored(sparse) && sparse != []
    ensures MergeSpec([], sparse, dw, sw) != []
  {
    var ns := Normalized(sparse);
    assert Ids(ns)[0] in Ids([]) + Ids(ns);
  }

  /** Stale corpus, as written: when the dense search finds nothing,
      `_initialize_bm25([])` keeps the corpus of an earlier call, so `retrieve`
      returns that call's passages for a query with no candidates at all. */
  lemma StaleCorpusLeak(h: Hybrid.HybridRetriever, meta: seq<Doc>, query: string,
                        topK: Option<int>, filter: Option<Filter>, i: nat)
    requires BaseRetriever.ValidateQuery(query).Success? && BaseRetriever.GetTopK(topK, h.topK) >= 1
    requires h.denseRetriever(query, Some(BaseRetriever.GetTopK(topK, h.topK) * 2), filter) == Success([])
    requires i < |meta| && Scores(TokenizeAll(CorpusOf(meta)), h.scorer, query)[i] > 0.0
    ensures h.RetrieveSpec(meta, query, topK, filter).Success?
    ensures h.RetrieveSpec(meta, query, topK, filter).value != []
  {
    var k := BaseRetriever.GetTopK(topK, h.topK);
    var scores := Scores(TokenizeAll(CorpusOf(meta)), h.scorer, query);
    SparseHitsNonEmpty(scores, k * 2, i);
    var sparse := SparseSpec(meta, h.scorer, query, k * 2);
    assert sparse != [];
    MergeNonEmpty(sparse, h.denseWeight, h.sparseWeight);
  }

  /** Corrected: with the index rebuilt from the latest candidates, a query the
      dense search finds nothing for returns nothing, whatever came before. */
  lemma FreshRetrieveNoCandidates(h: Hybrid.HybridRetriever, query: string,
                                  topK: Option<int>, filter: Option<Filter>)
    requires BaseRetriever.ValidateQuery(query).Success?
    requires h.denseRetriever(query, Some(BaseRetriever.GetTopK(topK, h.topK) * 2), filter) == Success([])
    ensures h.RetrieveSpec([], query, topK, filter) == Success([])
  {
    var ns := Normalized([]);
    assert Combined([], ns, h.denseWeight, h.sparseWeight) == [];
  }
}
