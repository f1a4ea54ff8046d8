/** `HybridRetriever` (retrieval/hybrid_retriever.py): dense retrieval, a BM25
    index rebuilt over the dense candidates, min-max normalization and
    weighted fusion. The object keeps the BM25 corpus between calls; its
    methods are proved to compute the functions of module HybridFusion. */
module Hybrid {
  import opened Wrappers
  import opened Errors
  import opened Text
  import opened Records
  import opened Ranking
  import opened HybridFusion
  import BaseRetriever

  /** The constructor's check: both weights within [0, 1]. */
  predicate WeightsValid(dw: real, sw: real) {
    0.0 <= dw <= 1.0 && 0.0 <= sw <= 1.0
  }

  /** `HybridRetriever(top_k, dense_retriever, dense_weight, sparse_weight)`:
      out-of-range weights raise ValueError; in-range weights are accepted
      whatever their sum (a sum off 1 by more than 0.01 is only logged). */
  method NewHybridRetriever(topK: int, denseRetriever: BaseRetriever.RetrieveFn, scorer: Bm25Scorer,
                            denseWeight: real, sparseWeight: real) returns (r: Result<HybridRetriever, Error>)
    ensures r.Success? <==> WeightsValid(denseWeight, sparseWeight)
    ensures r.Failure? ==> r.error == Error(ValueError, "Weights must be between 0 and 1")
    ensures r.Success? ==>
              fresh(r.value) && r.value.Valid() && r.value.bm25.None? && r.value.corpusMetadata == []
              && r.value.topK == topK && r.value.denseWeight == denseWeight && r.value.sparseWeight == sparseWeight
              && r.value.denseRetriever == denseRetriever && r.value.scorer == scorer
  {
    if !WeightsValid(denseWeight, sparseWeight) {
      return Failure(Error(ValueError, "Weights must be between 0 and 1"));
    }
    var h := new HybridRetriever(topK, denseRetriever, scorer, denseWeight, sparseWeight);
    return Success(h);
  }

  /** `normalize_scores(results, "score")`, writing `score_normalized` record by
      record. */
  method NormalizeScores(results: seq<Doc>) returns (out: seq<Doc>)
    requires AllScored(results)
    ensures out == Normalized(results)
  {
    if results == [] {
      return results;
    }
    var scores := ScoreList(results);
    var lo, hi := Min(scores), Max(scores);
    if hi == lo {
      return results;
    }
    var v := Rescale(scores, lo, hi);
    out := results;
    var i := 0;
    while i < |out|
      invariant 0 <= i <= |out| == |results|
      invariant forall j :: 0 <= j < i ==> out[j] == results[j].(scoreNormalized := Some(v[j]))
      invariant forall j :: i <= j < |out| ==> out[j] == results[j]
    {
      assert out[i] == results[i];
      var normalized := (out[i].score.value - lo) / (hi - lo);
      assert normalized == v[i];
      out := out[i := out[i].(scoreNormalized := Some(normalized))];
      i := i + 1;
    }
  }

  // The merge loops, one record at a time.

  /** A dense record entering the dict. */
  function NewDense(d: Doc, dw: real): Doc {
    d.(hybridScore := Some(Weighted(d, dw)), denseScore := Some(RawOf(d)), sparseScore := Some(0.0))
  }

  /** A sparse record whose id is not in the dict yet. */
  function NewSparse(s: Doc, sw: real): Doc {
    s.(hybridScore := Some(Weighted(s, sw)), denseScore := Some(0.0), sparseScore := Some(RawOf(s)))
  }

  /** A sparse record added to the entry already held for its id. */
  function AddSparse(e: Doc, s: Doc, sw: real): Doc {
    e.(hybridScore := Some(HybridOf(e) + Weighted(s, sw)), sparseScore := Some(RawOf(s)))
  }

  /** The dict after the dense loop has seen the records dense. */
  function DenseDict(dense: seq<Doc>, dw: real): map<string, Doc> {
    if dense == [] then map[]
    else
      var d := dense[|dense| - 1];
      DenseDict(dense[..|dense| - 1], dw)[IdOf(d) := NewDense(d, dw)]
  }

  /** The dict after the sparse loop has seen the records sparse, starting from c. */
  function SparseDict(c: map<string, Doc>, sparse: seq<Doc>, sw: real): map<string, Doc> {
    if sparse == [] then c
    else
      var s := sparse[|sparse| - 1];
      var prev := SparseDict(c, sparse[..|sparse| - 1], sw);
      prev[IdOf(s) := if IdOf(s) in prev then AddSparse(prev[IdOf(s)], s, sw) else NewSparse(s, sw)]
  }

  lemma DedupSnoc(xs: seq<string>, x: string)
    ensures Dedup(xs + [x]) == if x in Dedup(xs) then Dedup(xs) else Dedup(xs) + [x]
  {
    assert (xs + [x])[..|xs|] == xs;
  }

  lemma EntryDenseSnoc(dense: seq<Doc>, d: Doc, dw: real, sw: real, k: string)
    ensures Entry(dense + [d], [], dw, sw, k) == if IdOf(d) == k then NewDense(d, dw) else Entry(dense, [], dw, sw, k)
  {
    var ds := dense + [d];
    assert ds[..|ds| - 1] == dense && ds[|ds| - 1] == d;
    assert LastWith(ds, k) == if IdOf(d) == k then Some(d) else LastWith(dense, k);
    var none: seq<Doc> := [];
    assert LastWith(none, k) == None && SumWeighted(none, k, sw) == 0.0;
    if IdOf(d) == k {
      var e := Entry(ds, none, dw, sw, k);
      assert e.hybridScore == Some(Weighted(d, dw) + 0.0);
    }
  }

  lemma EntrySparseSnoc(dense: seq<Doc>, sparse: seq<Doc>, s: Doc, dw: real, sw: real, k: string)
    requires k in Ids(dense) + Ids(sparse)
    ensures Entry(dense, sparse + [s], dw, sw, k)
            == if IdOf(s) == k then AddSparse(Entry(dense, sparse, dw, sw, k), s, sw) else Entry(dense, sparse, dw, sw, k)
  {
    var ss := sparse + [s];
    assert ss[..|ss| - 1] == sparse && ss[|ss| - 1] == s;
    assert LastWith(ss, k) == if IdOf(s) == k then Some(s) else LastWith(sparse, k);
    assert SumWeighted(ss, k, sw) == SumWeighted(sparse, k, sw) + (if IdOf(s) == k then Weighted(s, sw) else 0.0);
    assert k in Ids(dense) || k in Ids(sparse);
    if LastWith(dense, k).None? {
      assert FirstWith(sparse, k).Some?;
      assert FirstWith(ss, k) == FirstWith(sparse, k);
    }
  }

  lemma EntrySparseNew(dense: seq<Doc>, sparse: seq<Doc>, s: Doc, dw: real, sw: real)
    requires IdOf(s) !in Ids(dense) + Ids(sparse)
    ensures Entry(dense, sparse + [s], dw, sw, IdOf(s)) == NewSparse(s, sw)
  {
    var ss := sparse + [s];
    var k := IdOf(s);
    assert ss[..|ss| - 1] == sparse && ss[|ss| - 1] == s;
    assert k !in Ids(dense) && k !in Ids(sparse);
    assert LastWith(ss, k) == Some(s);
    assert FirstWith(ss, k) == Some(s);
    SumWeightedAbsent(sparse, k, sw);
    assert SumWeighted(ss, k, sw) == SumWeighted(sparse, k, sw) + Weighted(s, sw);
  }

  lemma {:induction false} DenseDictKeys(dense: seq<Doc>, dw: real, k: string)
    ensures k in DenseDict(dense, dw) <==> k in Dedup(Ids(dense))
  {
    if dense != [] {
      var init := dense[..|dense| - 1];
      DenseDictKeys(init, dw, k);
      assert Ids(dense) == Ids(init) + [IdOf(dense[|dense| - 1])];
    }
  }

  lemma {:induction false} SparseDictKeys(dense: seq<Doc>, sparse: seq<Doc>, dw: real, sw: real, k: string)
    ensures k in SparseDict(DenseDict(dense, dw), sparse, sw) <==> k in Dedup(Ids(dense) + Ids(sparse))
  {
    if sparse == [] {
      DenseDictKeys(dense, dw, k);
      assert Ids(dense) + Ids(sparse) == Ids(dense);
    } else {
      var init := sparse[..|sparse| - 1];
      SparseDictKeys(dense, init, dw, sw, k);
      assert Ids(dense) + Ids(sparse) == (Ids(dense) + Ids(init)) + [IdOf(sparse[|sparse| - 1])];
    }
  }

  /** One iteration of the dense loop: the dict gains or overwrites the record's
      id, and the id joins the insertion order if it is new. */
  lemma DenseLoopStep(nd: seq<Doc>, i: nat, dw: real)
    requires i < |nd|
    ensures DenseDict(nd[..i + 1], dw) == DenseDict(nd[..i], dw)[IdOf(nd[i]) := NewDense(nd[i], dw)]
    ensures Dedup(Ids(nd[..i + 1]))
            == if IdOf(nd[i]) in DenseDict(nd[..i], dw) then Dedup(Ids(nd[..i])) else Dedup(Ids(nd[..i])) + [IdOf(nd[i])]
  {
    var id := IdOf(nd[i]);
    DenseDictKeys(nd[..i], dw, id);
    assert nd[..i + 1][..i] == nd[..i];
    assert Ids(nd[..i + 1]) == Ids(nd[..i]) + [id];
    DedupSnoc(Ids(nd[..i]), id);
  }

  /** One iteration of the sparse loop, likewise. */
  lemma SparseLoopStep(nd: seq<Doc>, ns: seq<Doc>, j: nat, dw: real, sw: real)
    requires j < |ns|
    ensures var prev := SparseDict(DenseDict(nd, dw), ns[..j], sw);
            var s := ns[j];
            SparseDict(DenseDict(nd, dw), ns[..j + 1], sw)
            == prev[IdOf(s) := if IdOf(s) in prev then AddSparse(prev[IdOf(s)], s, sw) else NewSparse(s, sw)]
    ensures Dedup(Ids(nd) + Ids(ns[..j + 1]))
            == if IdOf(ns[j]) in SparseDict(DenseDict(nd, dw), ns[..j], sw) then Dedup(Ids(nd) + Ids(ns[..j]))
               else Dedup(Ids(nd) + Ids(ns[..j])) + [IdOf(ns[j])]
  {
    SparseDictStep(nd, ns, j, dw, sw);
    SparseOrderStep(nd, ns, j, dw, sw);
  }

  lemma SparseDictStep(nd: seq<Doc>, ns: seq<Doc>, j: nat, dw: real, sw: real)
    requires j < |ns|
    ensures var prev := SparseDict(DenseDict(nd, dw), ns[..j], sw);
            var s := ns[j];
            SparseDict(DenseDict(nd, dw), ns[..j + 1], sw)
            == prev[IdOf(s) := if IdOf(s) in prev then AddSparse(prev[IdOf(s)], s, sw) else NewSparse(s, sw)]
  {
    assert ns[..j + 1][..j] == ns[..j];
  }

  lemma SparseOrderStep(nd: seq<Doc>, ns: seq<Doc>, j: nat, dw: real, sw: real)
    requires j < |ns|
    ensures Dedup(Ids(nd) + Ids(ns[..j + 1]))
            == if IdOf(ns[j]) in SparseDict(DenseDict(nd, dw), ns[..j], sw) then Dedup(Ids(nd) + Ids(ns[..j]))
               else Dedup(Ids(nd) + Ids(ns[..j])) + [IdOf(ns[j])]
  {
    var id := IdOf(ns[j]);
    var xs := Ids(nd) + Ids(ns[..j]);
    assert Ids(nd) + Ids(ns[..j + 1]) == xs + [id] by {
      assert Ids(ns[..j + 1]) == Ids(ns[..j]) + [id];
    }
    DedupSnoc(xs, id);
    SparseDictKeys(nd, ns[..j], dw, sw, id);
  }

  /** The dense loop leaves one entry per dense id: the closed form Entry. */
  lemma {:induction false} DenseDictEntries(dense: seq<Doc>, dw: real, sw: real)
    ensures forall k :: k in DenseDict(dense, dw) <==> k in Ids(dense)
    ensures forall k :: k in DenseDict(dense, dw) ==> DenseDict(dense, dw)[k] == Entry(dense, [], dw, sw, k)
  {
    if dense != [] {
      var init, d := dense[..|dense| - 1], dense[|dense| - 1];
      DenseDictEntries(init, dw, sw);
      assert dense == init + [d];
      assert Ids(dense) == Ids(init) + [IdOf(d)];
      forall k | k in DenseDict(dense, dw) ensures DenseDict(dense, dw)[k] == Entry(dense, [], dw, sw, k) {
        EntryDenseSnoc(init, d, dw, sw, k);
      }
    }
  }

  /** Both loops leave one entry per id of either list: the closed form Entry. */
  lemma {:induction false} SparseDictEntries(dense: seq<Doc>, sparse: seq<Doc>, dw: real, sw: real)
    ensures forall k :: k in SparseDict(DenseDict(dense, dw), sparse, sw) <==> k in Ids(dense) + Ids(sparse)
    ensures forall k :: k in SparseDict(DenseDict(dense, dw), sparse, sw) ==>
              SparseDict(DenseDict(dense, dw), sparse, sw)[k] == Entry(dense, sparse, dw, sw, k)
  {
    var c := DenseDict(dense, dw);
    if sparse == [] {
      DenseDictEntries(dense, dw, sw);
      assert Ids(dense) + Ids(sparse) == Ids(dense);
    } else {
      var init, s := sparse[..|sparse| - 1], sparse[|sparse| - 1];
      SparseDictEntries(dense, init, dw, sw);
      assert sparse == init + [s];
      assert Ids(dense) + Ids(sparse) == (Ids(dense) + Ids(init)) + [IdOf(s)];
      var prev := SparseDict(c, init, sw);
      var m := SparseDict(c, sparse, sw);
      forall k | k in m ensures m[k] == Entry(dense, sparse, dw, sw, k) {
        if k == IdOf(s) && k !in prev {
          EntrySparseNew(dense, init, s, dw, sw);
        } else {
          EntrySparseSnoc(dense, init, s, dw, sw, k);
        }
      }
    }
  }

  lemma {:induction false} SumWeightedAbsent(ds: seq<Doc>, k: string, w: real)
    requires k !in Ids(ds)
    ensures SumWeighted(ds, k, w) == 0.0
  {
    if ds != [] {
      var init := ds[..|ds| - 1];
      assert Ids(ds) == Ids(init) + [IdOf(ds[|ds| - 1])];
      SumWeightedAbsent(init, k, w);
    }
  }

  /** The dense loop of `_merge_results`: the dict and its keys in insertion order. */
  method AddDenseResults(nd: seq<Doc>, dw: real) returns (combined: map<string, Doc>, keys: seq<string>)
    ensures combined == DenseDict(nd, dw) && keys == Dedup(Ids(nd))
  {
    combined, keys := map[], [];
    var i := 0;
    while i < |nd|
      invariant 0 <= i <= |nd|
      invariant combined == DenseDict(nd[..i], dw) && keys == Dedup(Ids(nd[..i]))
    {
      var d := nd[i];
      var id := IdOf(d);
      DenseLoopStep(nd, i, dw);
      if id !in combined {
        keys := keys + [id];
      }
      combined := combined[id := NewDense(d, dw)];
      i := i + 1;
    }
    assert nd[..|nd|] == nd;
  }

  /** The sparse loop of `_merge_results`, continuing from the dense loop's dict. */
  method AddSparseResults(c: map<string, Doc>, ks: seq<string>, nd: seq<Doc>, ns: seq<Doc>, dw: real, sw: real)
    returns (combined: map<string, Doc>, keys: seq<string>)
    requires c == DenseDict(nd, dw) && ks == Dedup(Ids(nd))
    ensures combined == SparseDict(c, ns, sw) && keys == Dedup(Ids(nd) + Ids(ns))
  {
    combined, keys := c, ks;
    assert Ids(nd) + Ids(ns[..0]) == Ids(nd);
    var j := 0;
    while j < |ns|
      invariant 0 <= j <= |ns|
      invariant combined == SparseDict(c, ns[..j], sw) && keys == Dedup(Ids(nd) + Ids(ns[..j]))
    {
      var s := ns[j];
      var id := IdOf(s);
      SparseLoopStep(nd, ns, j, dw, sw);
      if id in combined {
        combined := combined[id := AddSparse(combined[id], s, sw)];
      } else {
        combined := combined[id := NewSparse(s, sw)];
        keys := keys + [id];
      }
      j := j + 1;
    }
    assert ns[..|ns|] == ns;
  }

  /** Normalization leaves the texts, hence the BM25 corpus, as they were. */
  lemma CorpusOfNormalized(docs: seq<Doc>)
    requires AllScored(docs)
    ensures CorpusOf(Normalized(docs)) == CorpusOf(docs)
  {
    NormalizedFrame(docs);
  }

  class HybridRetriever {
    const topK: int
    /** `self.dense_retriever.retrieve`. */
    const denseRetriever: BaseRetriever.RetrieveFn
    /** The BM25Okapi scoring function. */
    const scorer: Bm25Scorer
    const denseWeight: real
    const sparseWeight: real

    /** `self.bm25`: the tokenized corpus the index was built over, None before the first build. */
    var bm25: Option<seq<seq<string>>>
    var corpus: seq<string>
    var corpusMetadata: seq<Doc>

    /** The index, the corpus texts and the corpus records always describe the
        same documents. */
    predicate Valid()
      reads this
    {
      corpus == CorpusOf(corpusMetadata)
      && (bm25.None? <==> corpusMetadata == [])
      && (bm25.Some? ==> bm25.value == TokenizeAll(corpus))
    }

    /** `__init__` once the weights have passed the check. */
    constructor(topK: int, denseRetriever: BaseRetriever.RetrieveFn, scorer: Bm25Scorer,
                denseWeight: real, sparseWeight: real)
      requires WeightsValid(denseWeight, sparseWeight)
      ensures Valid()
      ensures this.topK == topK && this.denseRetriever == denseRetriever && this.scorer == scorer
      ensures this.denseWeight == denseWeight && this.sparseWeight == sparseWeight
      ensures bm25 == None && corpus == [] && corpusMetadata == []
    {
      this.topK := topK;
      this.denseRetriever := denseRetriever;
      this.scorer := scorer;
      this.denseWeight := denseWeight;
      this.sparseWeight := sparseWeight;
      bm25 := None;
      corpus := [];
      corpusMetadata := [];
    }

    /** `_initialize_bm25(documents)`: an empty list leaves the previous index in
        place; otherwise the index is rebuilt over the documents' texts and the
        documents become the corpus records. */
    method InitializeBm25(documents: seq<Doc>)
      requires Valid()
      modifies this
      ensures Valid()
      ensures documents == [] ==>
                bm25 == old(bm25) && corpus == old(corpus) && corpusMetadata == old(corpusMetadata)
      ensures documents != [] ==> corpusMetadata == documents
    {
      if documents == [] {
        return;
      }
      corpus := CorpusOf(documents);
      corpusMetadata := documents;
      bm25 := Some(TokenizeAll(corpus));
    }

    /** `_sparse_search(query, top_k)`: reads the index, changes nothing. */
    method SparseSearch(query: string, topK: int) returns (results: seq<Doc>)
      requires Valid()
      ensures results == SparseSpec(corpusMetadata, scorer, query, topK)
    {
      if bm25 == None || corpus == [] {
        return [];
      }
      var tokenizedQuery := Tokenize(query);
      var tokenized := bm25.value;
      var scores := seq(|tokenized|, i requires 0 <= i < |tokenized| => scorer(tokenized, i, tokenizedQuery));
      assert scores == Scores(TokenizeAll(CorpusOf(corpusMetadata)), scorer, query);
      RankDescSorted(scores);
      var top := PyTake(RankDesc(scores), topK);
      results := [];
      var i := 0;
      while i < |top|
        invariant 0 <= i <= |top|
        invariant results == HitsOf(corpusMetadata, scores, KeepPositive(scores, top[..i]))
      {
        var idx := top[i];
        HitsSnoc(corpusMetadata, scores, top, i);
        if scores[idx] > 0.0 {
          results := results + [SparseRecord(corpusMetadata[idx], scores[idx])];
        }
        i := i + 1;
      }
      assert top[..|top|] == top;
    }

    /** `_merge_results(dense_results, sparse_results)`: normalize both lists, then
        fuse them. */
    method MergeResults(dense: seq<Doc>, sparse: seq<Doc>) returns (merged: seq<Doc>)
      requires AllScored(dense) && AllScored(sparse)
      ensures merged == MergeSpec(dense, sparse, denseWeight, sparseWeight)
    {
      var nd := NormalizeScores(dense);
      var ns := NormalizeScores(sparse);
      merged := Combine(nd, ns);
    }

    /** The rest of `_merge_results`: fold the normalized lists into a dict keyed
        by id (dense first, then sparse), then sort its values by fused score. */
    method Combine(nd: seq<Doc>, ns: seq<Doc>) returns (merged: seq<Doc>)
      ensures merged == Fuse(nd, ns, denseWeight, sparseWeight)
    {
      var combined, keys := AddDenseResults(nd, denseWeight);
      combined, keys := AddSparseResults(combined, keys, nd, ns, denseWeight, sparseWeight);
      SparseDictEntries(nd, ns, denseWeight, sparseWeight);
      var values := seq(|keys|, t requires 0 <= t < |keys| => combined[keys[t]]);
      assert values == Combined(nd, ns, denseWeight, sparseWeight);
      merged := SortByHybrid(values);
    }

    /** Steps 2-6 of `retrieve` once the dense results are in: the outcome, given
        the corpus records held before the call. */
    function StepsSpec(meta: seq<Doc>, query: string, k: int, dense: seq<Doc>): Result<seq<Doc>, Error> {
      if !AllScored(dense) then Failure(Error(SearchError, "Hybrid retrieval failed: 'score'"))
      else
        var sparse := SparseSpec(if dense == [] then meta else dense, scorer, query, k * 2);
        Success(FinalResults(MergeSpec(dense, sparse, denseWeight, sparseWeight), k))
    }

    /** The corpus records steps 2-6 leave behind. The dense list itself becomes
        the corpus, so the `score_normalized` values written into it while merging
        stay visible to later calls. */
    function StepsMeta(meta: seq<Doc>, dense: seq<Doc>): seq<Doc> {
      if dense == [] then meta
      else if !AllScored(dense) then dense
      else Normalized(dense)
    }

    /** What `retrieve` returns, given the corpus records held before the call. */
    function RetrieveSpec(meta: seq<Doc>, query: string, topK: Option<int>, filter: Option<Filter>): Result<seq<Doc>, Error> {
      if BaseRetriever.ValidateQuery(query).Failure? then Failure(BaseRetriever.ValidateQuery(query).error)
      else
        var k := BaseRetriever.GetTopK(topK, this.topK);
        match denseRetriever(query, Some(k * 2), filter)
        case Failure(e) => Failure(Error(SearchError, "Hybrid retrieval failed: " + e.message))
        case Success(dense) => StepsSpec(meta, query, k, dense)
    }

    /** The corpus records `retrieve` leaves behind. */
    function MetaAfter(meta: seq<Doc>, query: string, topK: Option<int>, filter: Option<Filter>): seq<Doc> {
      if BaseRetriever.ValidateQuery(query).Failure? then meta
      else
        var k := BaseRetriever.GetTopK(topK, this.topK);
        match denseRetriever(query, Some(k * 2), filter)
        case Failure(_) => meta
        case Success(dense) => StepsMeta(meta, dense)
    }

    /** `retrieve(query, top_k, filter)`: validation outside the `try`, then the
        dense search, whose failure is wrapped as SearchError. */
    method Retrieve(query: string, topK: Option<int>, filter: Option<Filter>) returns (r: Result<seq<Doc>, Error>)
      requires Valid()
      modifies this
      ensures Valid()
      ensures r == RetrieveSpec(old(corpusMetadata), query, topK, filter)
      ensures corpusMetadata == MetaAfter(old(corpusMetadata), query, topK, filter)
    {
      var valid := BaseRetriever.ValidateQuery(query);
      if valid.Failure? {
        return Failure(valid.error);
      }
      var k := BaseRetriever.GetTopK(topK, this.topK);
      var denseResult := denseRetriever(query, Some(k * 2), filter);
      if denseResult.Failure? {
        return Failure(Error(SearchError, "Hybrid retrieval failed: " + denseResult.error.message));
      }
      r := RetrieveSteps(query, k, denseResult.value);
    }

    /** `corpus_metadata` is the dense list itself, so the `score_normalized`
        values the merge writes into its records show through it. */
    method SeeNormalized(dense: seq<Doc>)
      requires Valid() && corpusMetadata == dense && AllScored(dense)
      modifies this
      ensures Valid() && corpusMetadata == Normalized(dense)
      ensures bm25 == old(bm25) && corpus == old(corpus)
    {
      CorpusOfNormalized(dense);
      corpusMetadata := Normalized(dense);
    }

    /** Steps 2-6 of `retrieve`: rebuild BM25 over the dense results, search it,
        merge, keep the first k with the fused score as `score`, format. */
    method RetrieveSteps(query: string, k: int, dense: seq<Doc>) returns (r: Result<seq<Doc>, Error>)
      requires Valid()
      modifies this
      ensures Valid()
      ensures r == StepsSpec(old(corpusMetadata), query, k, dense)
      ensures corpusMetadata == StepsMeta(old(corpusMetadata), dense)
    {
      InitializeBm25(dense);
      var sparse := SparseSearch(query, k * 2);
      if !AllScored(dense) {
        // normalize_scores reads r["score"] on every dense record: KeyError('score')
        r := Failure(Error(SearchError, "Hybrid retrieval failed: 'score'"));
      } else {
        var merged := MergeResults(dense, sparse);
        if dense != [] {
          SeeNormalized(dense);
        }
        var finalResults := PyTake(merged, k);
        var scored := seq(|finalResults|, t requires 0 <= t < |finalResults| => Rescored(finalResults[t]));
        var formatted := BaseRetriever.FormatResults(scored);
        assert formatted == FinalResults(merged, k);
        r := Success(formatted);
      }
    }

    /** `_initialize_bm25` as evidently intended: the index always describes the
        latest candidates, and an empty candidate list empties it. */
    method InitializeBm25Fresh(documents: seq<Doc>)
      requires Valid()
      modifies this
      ensures Valid() && corpusMetadata == documents
    {
      corpus := CorpusOf(documents);
      corpusMetadata := documents;
      bm25 := if documents == [] then None else Some(TokenizeAll(corpus));
    }

    /** `retrieve` over the corrected index build: the outcome no longer depends
        on the corpus left by earlier calls. */
    method RetrieveFresh(query: string, topK: Option<int>, filter: Option<Filter>) returns (r: Result<seq<Doc>, Error>)
      requires Valid()
      modifies this
      ensures Valid()
      ensures r == RetrieveSpec([], query, topK, filter)
    {
      var valid := BaseRetriever.ValidateQuery(query);
      if valid.Failure? {
        return Failure(valid.error);
      }
      var k := BaseRetriever.GetTopK(topK, this.topK);
      var denseResult := denseRetriever(query, Some(k * 2), filter);
      if denseResult.Failure? {
        return Failure(Error(SearchError, "Hybrid retrieval failed: " + denseResult.error.message));
      }
      InitializeBm25Fresh(denseResult.value);
      r := RetrieveSteps(query, k, denseResult.value);
    }
  }
}
