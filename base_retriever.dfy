/** The behaviour every retriever shares (retrieval/base_retriever.py):
    query validation, the top_k override, the five-key result format and
    `retrieve_and_format`. The abstract `retrieve` is a function value. */
module BaseRetriever {
  import opened Wrappers
  import opened Errors
  import opened Text
  import opened Records

  const MaxQueryLength: nat := 1000

  /** `retriever.retrieve(query, top_k, filter)` of some concrete retriever. */
  type RetrieveFn = (string, Option<int>, Option<Filter>) -> Result<seq<Doc>, Error>

  /** `_validate_query`: rejects a query with no visible character, then one
      longer than 1000 characters; both as ValueError. */
  function ValidateQuery(query: string): (r: Result<(), Error>)
    ensures r.Failure? ==> r.error.kind == ValueError
    ensures r.Success? <==>
              (exists i :: 0 <= i < |query| && !IsSpace(query[i])) && |query| <= MaxQueryLength
  {
    StripShape(query);
    if query == [] || Strip(query) == [] then Failure(Error(ValueError, "Query cannot be empty"))
    else if |query| > MaxQueryLength then Failure(Error(ValueError, "Query too long (max 1000 characters)"))
    else Success(())
  }

  /** `_get_top_k(top_k)`: an override that is not None wins, 0 and negative
      values included; otherwise the instance's `top_k`. */
  function GetTopK(override: Option<int>, instanceTopK: int): (k: int)
    ensures override.Some? ==> k == override.value
    ensures override.None? ==> k == instanceTopK
  {
    override.GetOr(instanceTopK)
  }

  /** A record carrying exactly the five keys of the standard result format. */
  predicate IsFormatted(d: Doc) {
    d == NoKeys.(text := d.text, score := d.score, videoId := d.videoId,
                 chunkId := d.chunkId, metadata := d.metadata)
    && d.text.Some? && d.score.Some? && d.videoId.Some? && d.chunkId.Some? && d.metadata.Some?
  }

  /** One result of `_format_results`. */
  function FormatOne(d: Doc): (r: Doc)
    ensures IsFormatted(r)
  {
    NoKeys.(text := Some(d.text.GetOr("")),
            score := Some(d.score.GetOr(0.0)),
            videoId := Some(d.videoId.GetOr("unknown")),
            chunkId := Some(d.chunkId.GetOr(0)),
            metadata := Some(d.metadata.GetOr(map[])))
  }

  /** Formatting keeps the five standard keys and drops every other key:
      it depends on nothing else, and formatting twice changes nothing. */
  lemma FormatKeepsStandardKeys(d: Doc, e: Doc)
    ensures d.text == e.text && d.score == e.score && d.videoId == e.videoId
            && d.chunkId == e.chunkId && d.metadata == e.metadata
            ==> FormatOne(d) == FormatOne(e)
    ensures FormatOne(FormatOne(d)) == FormatOne(d)
    ensures IsFormatted(d) ==> FormatOne(d) == d
  {
  }

  /** `_format_results`: formats each result, in order. */
  method FormatResults(results: seq<Doc>) returns (formatted: seq<Doc>)
    ensures |formatted| == |results|
    ensures forall i :: 0 <= i < |results| ==> formatted[i] == FormatOne(results[i])
  {
    formatted := [];
    var i := 0;
    while i < |results|
      invariant 0 <= i <= |results|
      invariant |formatted| == i
      invariant forall j :: 0 <= j < i ==> formatted[j] == FormatOne(results[j])
    {
      formatted := formatted + [FormatOne(results[i])];
      i := i + 1;
    }
  }

  /** The dictionary `retrieve_and_format` returns. */
  datatype Response = Response(query: string, results: seq<Doc>, numResults: nat, retrieverType: string)

  /** `retrieve_and_format`: validate, retrieve, wrap with the count and the
      retriever's class name. */
  function RetrieveAndFormat(retrieve: RetrieveFn, retrieverType: string,
                             query: string, topK: Option<int>, filter: Option<Filter>): (r: Result<Response, Error>)
    ensures ValidateQuery(query).Failure? ==> r == Failure(ValidateQuery(query).error)
    ensures ValidateQuery(query).Success? ==>
              match retrieve(query, topK, filter)
              case Failure(e) => r == Failure(e)
              case Success(results) =>
                r.Success? && r.value.results == results && r.value.numResults == |results|
                && r.value.query == query && r.value.retrieverType == retrieverType
  {
    var _ :- ValidateQuery(query);
    var results :- retrieve(query, topK, filter);
    Success(Response(query, results, |results|, retrieverType))
  }

  /** The abstract `retrieve` of the base class. */
  function AbstractRetrieve(query: string, topK: Option<int>, filter: Option<Filter>): Result<seq<Doc>, Error> {
    Failure(Error(NotImplementedError, "Subclasses must implement retrieve() method"))
  }

  /** A query that fails validation never reaches the retriever: the outcome is
      the same whatever the retriever does. On the base class itself a valid
      query ends in NotImplementedError. */
  lemma ValidationPrecedesRetrieval(r1: RetrieveFn, r2: RetrieveFn, name: string,
                                    query: string, topK: Option<int>, filter: Option<Filter>)
    ensures ValidateQuery(query).Failure? ==>
              RetrieveAndFormat(r1, name, query, topK, filter) == RetrieveAndFormat(r2, name, query, topK, filter)
    ensures ValidateQuery(query).Success? ==>
              RetrieveAndFormat(AbstractRetrieve, name, query, topK, filter).Failure?
              && RetrieveAndFormat(AbstractRetrieve, name, query, topK, filter).error.kind == NotImplementedError
  {
  }
}
