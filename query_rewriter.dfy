/** `QueryRewritingRetriever` (retrieval/query_rewriter.py): an LLM rewrites
    the query, a base retriever searches with the rewrite, and every result
    is annotated with both queries. The LLM and the base retriever are
    function values; the retriever's fields never change after
    construction, so it is a value. */
module QueryRewriter {
  import opened Wrappers
  import opened Errors
  import opened Text
  import opened Records
  import BaseRetriever

  /** The chat completion call `rewrite_query` makes, applied to the user
      message (the filled rewrite prompt, `RewritePrompt`): the message
      content (None when the API returns none) or the failure's text. */
  type Llm = string -> Result<Option<string>, string>

  const RewritePromptHead: string :=
    "You are an expert at reformulating user queries to improve search results.\n\n"
    + "Given a user's query, rewrite it to be more specific, clear, and optimized for semantic search.\n\n"
    + "Rules:\n1. Expand abbreviations (e.g., \"ML\" -> \"machine learning\")\n2. Add context if the query is vague\n"
    + "3. Fix typos and grammar\n4. Make it a complete question or statement\n"
    + "5. Keep the core intent of the original query\n6. Output ONLY the rewritten query, nothing else\n\n"
    + "Examples:\nUser query: \"what's rag\"\nRewritten: \"What is Retrieval-Augmented Generation and how does it work?\"\n\n"
    + "User query: \"transformr model\"\nRewritten: \"What is a transformer model in machine learning?\"\n\n"
    + "User query: \"train llm\"\nRewritten: \"How are large language models trained?\"\n\n"
    + "Now rewrite this query:\nUser query: "
  const RewritePromptTail: string := "\nRewritten:"

  /** `QUERY_REWRITE_PROMPT.format(query=query)`. */
  function RewritePrompt(query: string): (p: string)
    ensures |p| == |RewritePromptHead| + |query| + |RewritePromptTail|
    ensures IsPrefix(RewritePromptHead, p)
    ensures p[|RewritePromptHead|..|p| - |RewritePromptTail|] == query
  {
    var p := RewritePromptHead + query + RewritePromptTail;
    assert p[..|RewritePromptHead|] == RewritePromptHead;
    assert p[|RewritePromptHead|..|p| - |RewritePromptTail|] == query;
    p
  }

  datatype QueryRewritingRetriever = QueryRewritingRetriever(
    topK: int,
    baseRetriever: BaseRetriever.RetrieveFn,
    llm: Llm,
    llmModel: string,
    temperature: real)

  /** `__init__`: `llm_model or settings.OPENAI_CHAT_MODEL`, so an empty
      model name also falls back. */
  function NewQueryRewritingRetriever(topK: int, baseRetriever: BaseRetriever.RetrieveFn, llm: Llm,
                                      llmModel: Option<string>, temperature: real,
                                      defaultModel: string): (r: QueryRewritingRetriever)
    ensures r.llmModel == if llmModel.Some? && llmModel.value != [] then llmModel.value else defaultModel
    ensures r.topK == topK && r.temperature == temperature
  {
    var model := if llmModel.Some? && llmModel.value != [] then llmModel.value else defaultModel;
    QueryRewritingRetriever(topK, baseRetriever, llm, model, temperature)
  }

  /** `rewrite_query`: the stripped completion, or the query itself when the
      call fails or returns no content (`None.strip()` raises too). */
  function RewriteQuery(llm: Llm, query: string): (r: string)
    ensures var c := llm(RewritePrompt(query));
            (c.Failure? ==> r == query)
            && (c == Success(None) ==> r == query)
            && (c.Success? && c.value.Some? ==> r == Strip(c.value.value))
  {
    match llm(RewritePrompt(query))
    case Success(Some(content)) => Strip(content)
    case _ => query
  }

  /** A rewrite never has whitespace at either end; the fallback is the query
      as given, untouched. */
  lemma RewriteShape(llm: Llm, query: string)
    ensures var r := RewriteQuery(llm, query);
            r == query || r == [] || (!IsSpace(r[0]) && !IsSpace(r[|r| - 1]))
  {
    var c := llm(RewritePrompt(query));
    if c.Success? && c.value.Some? {
      StripShape(c.value.value);
      assert RewriteQuery(llm, query) == Strip(c.value.value);
    } else {
      assert RewriteQuery(llm, query) == query;
    }
  }

  /** The query the base retriever receives. */
  function SearchQuery(r: QueryRewritingRetriever, query: string, skipRewrite: bool): string {
    if skipRewrite then query else RewriteQuery(r.llm, query)
  }

  /** A result with the two query keys written into it. */
  function Annotate(d: Doc, query: string, rewritten: string): (e: Doc)
    ensures e.originalQuery == Some(query) && e.rewrittenQuery == Some(rewritten)
    ensures e.(originalQuery := d.originalQuery, rewrittenQuery := d.rewrittenQuery) == d
  {
    d.(originalQuery := Some(query), rewrittenQuery := Some(rewritten))
  }

  /** `retrieve(query, top_k, filter, skip_rewrite)`: validation before
      anything else; the base retriever's failure passes through; its
      results come back in their order with both queries added. */
  method Retrieve(r: QueryRewritingRetriever, query: string, topK: Option<int>, filter: Option<Filter>,
                  skipRewrite: bool) returns (res: Result<seq<Doc>, Error>)
    ensures BaseRetriever.ValidateQuery(query).Failure? ==> res == Failure(BaseRetriever.ValidateQuery(query).error)
    ensures BaseRetriever.ValidateQuery(query).Success? ==>
              var q := SearchQuery(r, query, skipRewrite);
              match r.baseRetriever(q, Some(BaseRetriever.GetTopK(topK, r.topK)), filter)
              case Failure(e) => res == Failure(e)
              case Success(rs) =>
                res.Success? && |res.value| == |rs|
                && forall i :: 0 <= i < |rs| ==> res.value[i] == Annotate(rs[i], query, q)
  {
    var valid := BaseRetriever.ValidateQuery(query);
    if valid.Failure? {
      return Failure(valid.error);
    }
    var k := BaseRetriever.GetTopK(topK, r.topK);
    var rewritten := SearchQuery(r, query, skipRewrite);
    var fetched := r.baseRetriever(rewritten, Some(k), filter);
    if fetched.Failure? {
      return Failure(fetched.error);
    }
    var results := AnnotateAll(fetched.value, query, rewritten);
    return Success(results);
  }

  /** The loop over the base retriever's results. */
  method AnnotateAll(rs: seq<Doc>, query: string, rewritten: string) returns (out: seq<Doc>)
    ensures |out| == |rs|
    ensures forall i :: 0 <= i < |rs| ==> out[i] == Annotate(rs[i], query, rewritten)
  {
    out := rs;
    var i := 0;
    while i < |out|
      invariant 0 <= i <= |out| == |rs|
      invariant forall j :: 0 <= j < i ==> out[j] == Annotate(rs[j], query, rewritten)
      invariant forall j :: i <= j < |out| ==> out[j] == rs[j]
    {
      out := out[i := out[i].(originalQuery := Some(query), rewrittenQuery := Some(rewritten))];
      i := i + 1;
    }
  }

  /** `sum(r.get("score", 0) for r in rs)`. */
  function ScoreSum(rs: seq<Doc>): real {
    if rs == [] then 0.0 else ScoreSum(rs[..|rs| - 1]) + rs[|rs| - 1].score.GetOr(0.0)
  }

  /** That sum over `len(rs)`, for a non-empty list. */
  function Average(rs: seq<Doc>): real
    requires rs != []
  {
    ScoreSum(rs) / (|rs| as real)
  }

  /** The average lies between the smallest and the largest score. */
  lemma {:induction false} SumBounds(rs: seq<Doc>, lo: real, hi: real)
    requires forall i :: 0 <= i < |rs| ==> lo <= rs[i].score.GetOr(0.0) <= hi
    ensures (|rs| as real) * lo <= ScoreSum(rs) <= (|rs| as real) * hi
    decreases |rs|
  {
    if rs != [] {
      SumBounds(rs[..|rs| - 1], lo, hi);
    }
  }

  lemma AverageBounds(rs: seq<Doc>, lo: real, hi: real)
    requires rs != [] && forall i :: 0 <= i < |rs| ==> lo <= rs[i].score.GetOr(0.0) <= hi
    ensures lo <= Average(rs) <= hi
  {
    SumBounds(rs, lo, hi);
    DivideBounds(ScoreSum(rs), |rs| as real, lo, hi);
  }

  lemma DivideBounds(s: real, n: real, lo: real, hi: real)
    requires n > 0.0 && n * lo <= s <= n * hi
    ensures lo <= s / n <= hi
  {
    assert s / n * n == s;
  }

  /** The improvement dict: only `avg_score_diff` when either side is empty. */
  datatype Improvement =
    | NoComparison(avgScoreDiff: real)
    | Compared(originalAvgScore: real, rewrittenAvgScore: real, avgScoreDiff: real, improvementPct: real)

  /** `_calculate_improvement`. */
  function CalculateImprovement(original: seq<Doc>, rewritten: seq<Doc>): (m: Improvement)
    ensures original == [] || rewritten == [] <==> m == NoComparison(0.0)
    ensures m.Compared? ==>
              m.originalAvgScore == Average(original) && m.rewrittenAvgScore == Average(rewritten)
    ensures m.Compared? && m.originalAvgScore > 0.0 ==>
              m.improvementPct == m.avgScoreDiff / m.originalAvgScore * 100.0
    ensures m.Compared? ==>
              m.avgScoreDiff == m.rewrittenAvgScore - m.originalAvgScore
              && (m.originalAvgScore <= 0.0 ==> m.improvementPct == 0.0)
              && (m.originalAvgScore > 0.0 ==> (m.improvementPct > 0.0 <==> m.avgScoreDiff > 0.0))
  {
    if original == [] || rewritten == [] then NoComparison(0.0)
    else
      var o, w := Average(original), Average(rewritten);
      var pct := if o > 0.0 then (w - o) / o * 100.0 else 0.0;
      PercentSign(w - o, o);
      Compared(o, w, w - o, pct)
  }

  lemma PercentSign(d: real, o: real)
    ensures o > 0.0 ==> (d / o * 100.0 > 0.0 <==> d > 0.0)
  {
    if o <= 0.0 {
    } else if d > 0.0 {
      assert d / o > 0.0;
    } else {
      assert d / o <= 0.0;
    }
  }

  /** Comparing a list with itself shows no difference. */
  lemma SameResultsNoImprovement(rs: seq<Doc>)
    requires rs != []
    ensures CalculateImprovement(rs, rs).avgScoreDiff == 0.0
    ensures CalculateImprovement(rs, rs).improvementPct == 0.0
  {
  }

  datatype QueryComparison = QueryComparison(originalQuery: string, rewrittenQuery: string,
                                   originalResults: seq<Doc>, rewrittenResults: seq<Doc>,
                                   improvement: Improvement)

  /** `compare_queries(query, top_k)`: a search without and one with the
      rewrite; the reported rewrite is read off the first rewritten result. */
  method CompareQueries(r: QueryRewritingRetriever, query: string, topK: int) returns (res: Result<QueryComparison, Error>)
    ensures BaseRetriever.ValidateQuery(query).Failure? ==> res == Failure(BaseRetriever.ValidateQuery(query).error)
    ensures BaseRetriever.ValidateQuery(query).Success? && r.baseRetriever(query, Some(topK), None).Failure? ==>
              res == Failure(r.baseRetriever(query, Some(topK), None).error)
    ensures BaseRetriever.ValidateQuery(query).Success? && r.baseRetriever(query, Some(topK), None).Success?
            && r.baseRetriever(RewriteQuery(r.llm, query), Some(topK), None).Failure? ==>
              res == Failure(r.baseRetriever(RewriteQuery(r.llm, query), Some(topK), None).error)
    ensures BaseRetriever.ValidateQuery(query).Success? && r.baseRetriever(query, Some(topK), None).Success?
            && r.baseRetriever(RewriteQuery(r.llm, query), Some(topK), None).Success? ==>
              res.Success?
    ensures res.Success? ==>
              res.value.originalQuery == query
              && r.baseRetriever(query, Some(topK), None).Success?
              && |res.value.originalResults| == |r.baseRetriever(query, Some(topK), None).value|
              && (forall i :: 0 <= i < |res.value.originalResults| ==>
                    res.value.originalResults[i] == Annotate(r.baseRetriever(query, Some(topK), None).value[i], query, query))
              && r.baseRetriever(RewriteQuery(r.llm, query), Some(topK), None).Success?
              && |res.value.rewrittenResults| == |r.baseRetriever(RewriteQuery(r.llm, query), Some(topK), None).value|
              && (forall i :: 0 <= i < |res.value.rewrittenResults| ==>
                    res.value.rewrittenResults[i]
                    == Annotate(r.baseRetriever(RewriteQuery(r.llm, query), Some(topK), None).value[i], query, RewriteQuery(r.llm, query)))
              && (res.value.rewrittenResults != [] ==> res.value.rewrittenQuery == RewriteQuery(r.llm, query))
              && (res.value.rewrittenResults == [] ==> res.value.rewrittenQuery == query)
              && res.value.improvement == CalculateImprovement(res.value.originalResults, res.value.rewrittenResults)
  {
    var original := Retrieve(r, query, Some(topK), None, true);
    if original.Failure? {
      return Failure(original.error);
    }
    var rewritten := Retrieve(r, query, Some(topK), None, false);
    if rewritten.Failure? {
      return Failure(rewritten.error);
    }
    var rws := rewritten.value;
    var rq := if rws != [] then rws[0].rewrittenQuery.GetOr(query) else query;
    return Success(QueryComparison(query, rq, original.value, rws, CalculateImprovement(original.value, rws)));
  }
}
