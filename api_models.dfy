/** The request schemas of the HTTP API (api/models.py). A request is the
    record of its field values after defaults are applied; validation
    accepts it or names every field that breaks its bounds or validator, in
    declaration order, as a pydantic ValidationError does. */
module ApiModels {
  import opened Wrappers
  import opened Errors
  import opened Text
  import Validators

  /** `Field(min_length=11, max_length=11)` followed by the
      `^[a-zA-Z0-9_-]{11}$` validator (the regex runs only on an 11-char
      value, so its `$` cannot accept a trailing newline). */
  predicate VideoIdOk(v: string) {
    |v| == 11 && Validators.IsVideoId(v)
  }

  /** An optional integer constrained by `ge` and `le`: None passes. */
  predicate IntInRange(v: Option<int>, lo: int, hi: int) {
    v.None? || lo <= v.value <= hi
  }

  predicate RealInRange(v: Option<real>, lo: real, hi: real) {
    v.None? || lo <= v.value <= hi
  }

  /** The field name if the check failed. */
  function Flag(ok: bool, field: string): seq<string> {
    if ok then [] else [field]
  }

  datatype IndexRequest = IndexRequest(videoId: string, namespace: Option<string>,
                                       chunkSize: Option<int>, chunkOverlap: Option<int>)

  function IndexRequestErrors(r: IndexRequest): (errs: seq<string>)
    ensures errs == [] <==>
              VideoIdOk(r.videoId) && IntInRange(r.chunkSize, 100, 5000) && IntInRange(r.chunkOverlap, 0, 1000)
    ensures "video_id" in errs <==> !VideoIdOk(r.videoId)
    ensures "chunk_size" in errs <==> !IntInRange(r.chunkSize, 100, 5000)
    ensures "chunk_overlap" in errs <==> !IntInRange(r.chunkOverlap, 0, 1000)
  {
    Flag(VideoIdOk(r.videoId), "video_id")
    + Flag(IntInRange(r.chunkSize, 100, 5000), "chunk_size")
    + Flag(IntInRange(r.chunkOverlap, 0, 1000), "chunk_overlap")
  }

  /** The API accepts exactly the ids the library validator returns
      unchanged: no padding and no other characters. */
  lemma IndexIdAgreesWithValidator(v: string)
    ensures VideoIdOk(v) <==> Validators.ValidateVideoId(v) == Success(v)
  {
    if VideoIdOk(v) {
      Validators.VideoIdNoSpace(v);
      StripNoSpace(v);
    }
  }

  const RetrieverTypes: seq<string> := ["simple", "rewriting", "hybrid"]

  datatype QueryRequest = QueryRequest(question: string, videoId: Option<string>, retrieverType: string,
                                       topK: Option<int>, includeCitations: bool, temperature: Option<real>)

  /** The request built from the question alone. */
  function DefaultQuery(question: string): QueryRequest {
    QueryRequest(question, None, "hybrid", Some(4), true, Some(0.2))
  }

  function QueryRequestErrors(r: QueryRequest): (errs: seq<string>)
    ensures errs == [] <==>
              3 <= |r.question| <= 500
              && (r.videoId.None? || VideoIdOk(r.videoId.value))
              && r.retrieverType in RetrieverTypes
              && IntInRange(r.topK, 1, 10)
              && RealInRange(r.temperature, 0.0, 1.0)
    ensures "question" in errs <==> !(3 <= |r.question| <= 500)
    ensures "retriever_type" in errs <==> r.retrieverType !in RetrieverTypes
  {
    Flag(3 <= |r.question| <= 500, "question")
    + Flag(r.videoId.None? || VideoIdOk(r.videoId.value), "video_id")
    + Flag(r.retrieverType in RetrieverTypes, "retriever_type")
    + Flag(IntInRange(r.topK, 1, 10), "top_k")
    + Flag(RealInRange(r.temperature, 0.0, 1.0), "temperature")
  }

  /** With the defaults only the question's length decides; its characters
      are not stripped, so three spaces pass. */
  lemma DefaultQueryAccepted(question: string)
    ensures QueryRequestErrors(DefaultQuery(question)) == [] <==> 3 <= |question| <= 500
  {
  }

  datatype BatchIndexRequest = BatchIndexRequest(videoIds: seq<string>, namespace: Option<string>)

  /** Only the number of ids is bounded; the ids themselves are not checked. */
  function BatchIndexRequestErrors(r: BatchIndexRequest): (errs: seq<string>)
    ensures errs == [] <==> 1 <= |r.videoIds| <= 10
  {
    Flag(1 <= |r.videoIds| <= 10, "video_ids")
  }

  datatype DeleteRequest = DeleteRequest(videoId: string, namespace: Option<string>)

  /** Only the length of the id is bounded: there is no character check. */
  function DeleteRequestErrors(r: DeleteRequest): (errs: seq<string>)
    ensures errs == [] <==> |r.videoId| == 11
  {
    Flag(|r.videoId| == 11, "video_id")
  }

  /** A delete request is accepted for every id an index request accepts,
      and for some it refuses. */
  lemma DeleteLooserThanIndex(v: string, ns: Option<string>)
    ensures IndexRequestErrors(IndexRequest(v, ns, None, None)) == [] ==>
              DeleteRequestErrors(DeleteRequest(v, ns)) == []
    ensures DeleteRequestErrors(DeleteRequest("hello world", ns)) == []
    ensures IndexRequestErrors(IndexRequest("hello world", ns, None, None)) == ["video_id"]
  {
    assert !Validators.IsIdChar("hello world"[5]);
  }
}
