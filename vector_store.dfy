/** `PineconeVectorStore` (indexing/vector_store.py): prepares embedded chunks
    as Pinecone vectors, sends them in batches, queries and deletes. The
    Pinecone index is outside the program: each of its operations is a
    function value giving the call's outcome, and the store records, in
    `calls`, every upsert and delete the index accepted, in order. */
module VectorStore {
  import opened Wrappers
  import opened Errors
  import opened Text
  import opened Records

  datatype Vector = Vector(id: string, values: seq<real>, metadata: Metadata)

  /** A call the index accepted. */
  datatype IndexCall = Upserted(vectors: seq<Vector>, namespace: string) | Deleted(videoId: string, namespace: string)

  datatype Match = Match(id: string, score: real, metadata: Metadata)

  datatype IndexStats = IndexStats(totalVectorCount: int, dimension: int, indexFullness: real,
                                   namespaces: map<string, int>)

  type UpsertApi = (seq<Vector>, string) -> Result<(), string>
  type QueryApi = (seq<real>, int, string, Option<Filter>) -> Result<seq<Match>, string>
  type DeleteApi = (string, string) -> Result<(), string>
  type StatsApi = () -> Result<IndexStats, string>

  // ---------------------------------------------------------------------
  // vector preparation

  /** `f"{v}"` for a metadata value. */
  function Render(v: MetaValue): string {
    match v
    case MStr(s) => s
    case MInt(i) => IntToString(i)
  }

  /** `chunk.get("metadata", {}).get(key, default)`. */
  function MetaOr(c: Chunk, key: string, default: MetaValue): (v: MetaValue)
    ensures c.metadata.Some? && key in c.metadata.value ==> v == c.metadata.value[key]
    ensures !(c.metadata.Some? && key in c.metadata.value) ==> v == default
  {
    if c.metadata.Some? && key in c.metadata.value then c.metadata.value[key] else default
  }

  /** `f"{video_id}_{chunk_id}"` with the defaults "unknown" and 0. */
  function VectorId(c: Chunk): string {
    Render(MetaOr(c, "video_id", MStr("unknown"))) + "_" + IntToString(c.chunkId.GetOr(0))
  }

  /** Pinecone limits metadata size: the text is cut to 1000 characters. */
  const MaxMetadataText: nat := 1000

  function VectorOf(c: Chunk): (v: Vector)
    requires c.embedding.Some?
    ensures v.id == VectorId(c) && v.values == c.embedding.value
    ensures v.metadata.Keys == {"video_id", "chunk_id", "text", "language", "source"}
    ensures v.metadata["text"] == MStr(PyTake(c.text, MaxMetadataText))
    ensures |PyTake(c.text, MaxMetadataText)| == if |c.text| <= MaxMetadataText then |c.text| else MaxMetadataText
  {
    Vector(VectorId(c), c.embedding.value,
           map["video_id" := MetaOr(c, "video_id", MStr("unknown")),
               "chunk_id" := MInt(c.chunkId.GetOr(0)),
               "text" := MStr(PyTake(c.text, MaxMetadataText)),
               "language" := MetaOr(c, "language", MStr("unknown")),
               "source" := MetaOr(c, "source", MStr("youtube"))])
  }

  /** The vectors `upsert_chunks` prepares: one per chunk that has an
      embedding, in chunk order. */
  function Prepared(chunks: seq<Chunk>): (vs: seq<Vector>)
    ensures |vs| <= |chunks|
  {
    if chunks == [] then []
    else
      var n := |chunks| - 1;
      Prepared(chunks[..n]) + (if chunks[n].embedding.Some? then [VectorOf(chunks[n])] else [])
  }

  /** The preparation loop. */
  method PrepareVectors(chunks: seq<Chunk>) returns (vectors: seq<Vector>)
    ensures vectors == Prepared(chunks)
  {
    vectors := [];
    var i := 0;
    while i < |chunks|
      invariant 0 <= i <= |chunks|
      invariant vectors == Prepared(chunks[..i])
    {
      assert chunks[..i + 1][..i] == chunks[..i];
      if chunks[i].embedding.Some? {
        vectors := vectors + [VectorOf(chunks[i])];
      }
      i := i + 1;
    }
    assert chunks[..i] == chunks;
  }

  /** Chunks that all have an embedding give one vector each, in order. */
  lemma {:induction false} PreparedAll(chunks: seq<Chunk>)
    requires forall i :: 0 <= i < |chunks| ==> chunks[i].embedding.Some?
    ensures |Prepared(chunks)| == |chunks|
    ensures forall i :: 0 <= i < |chunks| ==> Prepared(chunks)[i] == VectorOf(chunks[i])
    decreases |chunks|
  {
    if chunks != [] {
      var n := |chunks| - 1;
      var front := chunks[..n];
      PreparedAll(front);
      var v := VectorOf(chunks[n]);
      assert Prepared(chunks) == Prepared(front) + [v];
      forall i | 0 <= i < |chunks|
        ensures Prepared(chunks)[i] == VectorOf(chunks[i])
      {
        if i < n {
          assert front[i] == chunks[i];
        }
      }
    }
  }

  /** Chunks without an embedding contribute nothing. */
  lemma {:induction false} PreparedNone(chunks: seq<Chunk>)
    requires forall i :: 0 <= i < |chunks| ==> chunks[i].embedding.None?
    ensures Prepared(chunks) == []
    decreases |chunks|
  {
    if chunks != [] {
      PreparedNone(chunks[..|chunks| - 1]);
    }
  }

  // ---------------------------------------------------------------------
  // batching

  /** `[vectors[i:i + size] for i in range(0, len(vectors), size)]`. */
  function Batches(vs: seq<Vector>, size: nat): seq<seq<Vector>>
    requires size > 0
  {
    BatchesFrom(vs, 0, size)
  }

  /** The end of the batch that starts at `i`. */
  function BatchEnd(vs: seq<Vector>, i: nat, size: nat): (end: nat)
    requires i < |vs| && size > 0
    ensures i < end <= |vs| && end - i <= size
    ensures end < |vs| ==> end - i == size
  {
    if i + size <= |vs| then i + size else |vs|
  }

  /** The batches from position `i` on. */
  function BatchesFrom(vs: seq<Vector>, i: nat, size: nat): seq<seq<Vector>>
    requires i <= |vs| && size > 0
    decreases |vs| - i
  {
    if i == |vs| then []
    else [vs[i..BatchEnd(vs, i, size)]] + BatchesFrom(vs, BatchEnd(vs, i, size), size)
  }

  function Flatten(bs: seq<seq<Vector>>): seq<Vector> {
    if bs == [] then [] else bs[0] + Flatten(bs[1..])
  }

  /** The batches cover the vectors in order, each holds between one and
      `size` vectors, and only the last can be short. */
  lemma BatchesCover(vs: seq<Vector>, size: nat)
    requires size > 0
    ensures Flatten(Batches(vs, size)) == vs
    ensures forall k :: 0 <= k < |Batches(vs, size)| ==> 1 <= |Batches(vs, size)[k]| <= size
    ensures forall k :: 0 <= k < |Batches(vs, size)| - 1 ==> |Batches(vs, size)[k]| == size
  {
    BatchesFromCover(vs, 0, size);
  }

  lemma {:induction false} BatchesFromCover(vs: seq<Vector>, i: nat, size: nat)
    requires i <= |vs| && size > 0
    ensures Flatten(BatchesFrom(vs, i, size)) == vs[i..]
    ensures forall k :: 0 <= k < |BatchesFrom(vs, i, size)| ==> 1 <= |BatchesFrom(vs, i, size)[k]| <= size
    ensures forall k :: 0 <= k < |BatchesFrom(vs, i, size)| - 1 ==> |BatchesFrom(vs, i, size)[k]| == size
    decreases |vs| - i
  {
    if i < |vs| {
      var end := BatchEnd(vs, i, size);
      BatchesFromCover(vs, end, size);
      var rest := BatchesFrom(vs, end, size);
      var all := BatchesFrom(vs, i, size);
      assert all == [vs[i..end]] + rest;
      assert all[1..] == rest;
      assert vs[i..] == vs[i..end] + vs[end..];
      assert forall k :: 1 <= k < |all| ==> all[k] == rest[k - 1];
      if end == |vs| {
        assert rest == [];
      }
    }
  }

  /** The outcome of sending the batches one after the other: the batches the
      index accepted, and the failure that stopped the loop, if any. */
  datatype BatchRun = BatchRun(sent: seq<seq<Vector>>, failure: Option<string>)

  function Run(api: UpsertApi, bs: seq<seq<Vector>>, namespace: string): BatchRun {
    if bs == [] then BatchRun([], None)
    else match api(bs[0], namespace)
      case Failure(e) => BatchRun([], Some(e))
      case Success(_) =>
        var rest := Run(api, bs[1..], namespace);
        BatchRun([bs[0]] + rest.sent, rest.failure)
  }

  /** The run sends a prefix of the batches: all of them when nothing fails,
      and otherwise those before the first batch the index refused. */
  lemma {:induction false} RunShape(api: UpsertApi, bs: seq<seq<Vector>>, namespace: string)
    ensures var r := Run(api, bs, namespace);
            && |r.sent| <= |bs| && r.sent == bs[..|r.sent|]
            && (r.failure.None? <==> r.sent == bs)
            && (r.failure.Some? ==> |r.sent| < |bs| && api(bs[|r.sent|], namespace) == Failure(r.failure.value))
    decreases |bs|
  {
    if bs != [] && api(bs[0], namespace).Success? {
      RunShape(api, bs[1..], namespace);
      var rest := Run(api, bs[1..], namespace).sent;
      assert bs == [bs[0]] + bs[1..];
      assert ([bs[0]] + rest)[1..] == rest;
    }
  }

  /** Every batch of the run's prefix was accepted by the index. */
  lemma {:induction false} RunSentAccepted(api: UpsertApi, bs: seq<seq<Vector>>, namespace: string)
    ensures forall k :: 0 <= k < |Run(api, bs, namespace).sent| ==> api(Run(api, bs, namespace).sent[k], namespace).Success?
    decreases |bs|
  {
    if bs != [] && api(bs[0], namespace).Success? {
      RunSentAccepted(api, bs[1..], namespace);
      var rest := Run(api, bs[1..], namespace).sent;
      assert forall k :: 1 <= k < |rest| + 1 ==> ([bs[0]] + rest)[k] == rest[k - 1];
    }
  }

  /** The log entries of the accepted batches, in order. */
  function UpsertCalls(bs: seq<seq<Vector>>, namespace: string): (cs: seq<IndexCall>)
    ensures |cs| == |bs| && forall k :: 0 <= k < |bs| ==> cs[k] == Upserted(bs[k], namespace)
  {
    if bs == [] then [] else UpsertCalls(bs[..|bs| - 1], namespace) + [Upserted(bs[|bs| - 1], namespace)]
  }

  /** The dictionary `upsert_chunks` returns; the empty input gives only
      `upserted_count`. */
  datatype UpsertResult = UpsertResult(upsertedCount: nat, totalChunks: Option<nat>, namespace: Option<string>)

  datatype DeleteResult = DeleteResult(deleted: bool, videoId: string, namespace: string)

  /** A match as `query` returns it. */
  function MatchDoc(m: Match): (d: Doc)
    ensures d.id == Some(m.id) && d.score == Some(m.score) && d.metadata == Some(m.metadata)
    ensures "text" !in m.metadata ==> d.text == Some("")
    ensures "video_id" !in m.metadata ==> d.videoId == Some("")
    ensures "chunk_id" !in m.metadata ==> d.chunkId == Some(0)
  {
    var text := if "text" in m.metadata then Render(m.metadata["text"]) else "";
    var videoId := if "video_id" in m.metadata then Render(m.metadata["video_id"]) else "";
    var chunkId := if "chunk_id" in m.metadata && m.metadata["chunk_id"].MInt? then m.metadata["chunk_id"].i else 0;
    NoKeys.(id := Some(m.id), score := Some(m.score), text := Some(text), videoId := Some(videoId),
            chunkId := Some(chunkId), metadata := Some(m.metadata))
  }

  class Store {
    const indexName: string
    const dimension: int
    const upsertApi: UpsertApi
    const queryApi: QueryApi
    const deleteApi: DeleteApi
    const statsApi: StatsApi
    /** The upserts and deletes the index accepted, oldest first. */
    var calls: seq<IndexCall>

    /** `__init__`: `index_name or default`, `dimension or default`. */
    constructor (indexName: Option<string>, dimension: Option<int>,
                 upsertApi: UpsertApi, queryApi: QueryApi, deleteApi: DeleteApi, statsApi: StatsApi,
                 defaultIndexName: string, defaultDimension: int)
      ensures this.indexName == if indexName.Some? && indexName.value != [] then indexName.value else defaultIndexName
      ensures this.dimension == if dimension.Some? && dimension.value != 0 then dimension.value else defaultDimension
      ensures this.upsertApi == upsertApi && this.queryApi == queryApi
      ensures this.deleteApi == deleteApi && this.statsApi == statsApi
      ensures calls == []
    {
      this.indexName := if indexName.Some? && indexName.value != [] then indexName.value else defaultIndexName;
      this.dimension := if dimension.Some? && dimension.value != 0 then dimension.value else defaultDimension;
      this.upsertApi := upsertApi;
      this.queryApi := queryApi;
      this.deleteApi := deleteApi;
      this.statsApi := statsApi;
      calls := [];
    }

    /** `upsert_chunks(chunks, namespace, batch_size)`. A zero batch size makes
        `range` raise, which is reported as VectorStoreError; a negative one
        gives an empty range, so nothing is sent. A failing batch stops the
        loop: the batches before it stay in the index. */
    method UpsertChunks(chunks: seq<Chunk>, namespace: string, batchSize: int) returns (r: Result<UpsertResult, Error>)
      modifies this
      ensures chunks == [] ==> r == Success(UpsertResult(0, None, None)) && calls == old(calls)
      ensures chunks != [] && batchSize == 0 ==>
                r == Failure(Error(VectorStoreError, "Failed to upsert chunks: range() arg 3 must not be zero"))
                && calls == old(calls)
      ensures chunks != [] && batchSize < 0 ==>
                r == Success(UpsertResult(0, Some(|chunks|), Some(namespace))) && calls == old(calls)
      ensures chunks != [] && batchSize > 0 ==>
                var run := Run(upsertApi, Batches(Prepared(chunks), batchSize), namespace);
                && calls == old(calls) + UpsertCalls(run.sent, namespace)
                && (run.failure.None? ==>
                      r == Success(UpsertResult(|Prepared(chunks)|, Some(|chunks|), Some(namespace))))
                && (run.failure.Some? ==>
                      r == Failure(Error(VectorStoreError, "Batch upsert failed: " + run.failure.value)))
    {
      if chunks == [] {
        return Success(UpsertResult(0, None, None));
      }
      var vectors := PrepareVectors(chunks);
      if batchSize == 0 {
        return Failure(Error(VectorStoreError, "Failed to upsert chunks: range() arg 3 must not be zero"));
      }
      if batchSize < 0 {
        return Success(UpsertResult(0, Some(|chunks|), Some(namespace)));
      }
      var sent, failure := SendBatches(vectors, namespace, batchSize);
      if failure.Some? {
        return Failure(Error(VectorStoreError, "Batch upsert failed: " + failure.value));
      }
      return Success(UpsertResult(sent, Some(|chunks|), Some(namespace)));
    }

    /** The batch loop of `upsert_chunks`: sends `vectors[i:i + size]` for
        i = 0, size, 2 * size, ... and stops at the first failure. */
    method SendBatches(vectors: seq<Vector>, namespace: string, size: nat) returns (sent: nat, failure: Option<string>)
      requires size > 0
      modifies this
      ensures var run := Run(upsertApi, Batches(vectors, size), namespace);
              calls == old(calls) + UpsertCalls(run.sent, namespace) && failure == run.failure
              && (failure.None? ==> sent == |vectors|)
    {
      var api := upsertApi;
      ghost var done: seq<seq<Vector>> := [];
      sent := 0;
      var i := 0;
      while i < |vectors|
        invariant 0 <= i <= |vectors| && sent == i
        invariant SentSoFar(api, vectors, size, i, done, namespace)
        invariant calls == old(calls) + UpsertCalls(done, namespace)
        decreases |vectors| - i
      {
        var end := BatchEnd(vectors, i, size);
        var batch := vectors[i..end];
        var outcome := api(batch, namespace);
        if outcome.Failure? {
          StopAt(api, vectors, size, i, done, namespace);
          return sent, Some(outcome.error);
        }
        calls := calls + [Upserted(batch, namespace)];
        Advance(api, vectors, size, i, done, namespace);
        UpsertCallsSnoc(done, batch, namespace);
        done := done + [batch];
        sent := sent + |batch|;
        i := end;
      }
      Finish(api, vectors, size, done, namespace);
      return sent, None;
    }

    /** `query(query_embedding, top_k, namespace, filter)`: an empty embedding
        is refused before the index is asked; matches keep the index's order. */
    method Query(queryEmbedding: seq<real>, topK: int, namespace: string, filter: Option<Filter>)
      returns (r: Result<seq<Doc>, Error>)
      ensures queryEmbedding == [] ==> r == Failure(Error(VectorStoreError, "Query embedding cannot be empty"))
      ensures queryEmbedding != [] ==>
                match queryApi(queryEmbedding, topK, namespace, filter)
                case Failure(e) => r == Failure(Error(VectorStoreError, "Failed to query Pinecone: " + e))
                case Success(ms) =>
                  r.Success? && |r.value| == |ms| && forall k :: 0 <= k < |ms| ==> r.value[k] == MatchDoc(ms[k])
    {
      if queryEmbedding == [] {
        return Failure(Error(VectorStoreError, "Query embedding cannot be empty"));
      }
      var results := queryApi(queryEmbedding, topK, namespace, filter);
      if results.Failure? {
        return Failure(Error(VectorStoreError, "Failed to query Pinecone: " + results.error));
      }
      var matches: seq<Doc> := [];
      var k := 0;
      while k < |results.value|
        invariant 0 <= k <= |results.value| && |matches| == k
        invariant forall j :: 0 <= j < k ==> matches[j] == MatchDoc(results.value[j])
      {
        matches := matches + [MatchDoc(results.value[k])];
        k := k + 1;
      }
      return Success(matches);
    }

    /** `delete_by_video_id(video_id, namespace)`: deletes by the
        `{"video_id": video_id}` filter. */
    method DeleteByVideoId(videoId: string, namespace: string) returns (r: Result<DeleteResult, Error>)
      modifies this
      ensures deleteApi(videoId, namespace).Success? ==>
                r == Success(DeleteResult(true, videoId, namespace)) && calls == old(calls) + [Deleted(videoId, namespace)]
      ensures deleteApi(videoId, namespace).Failure? ==>
                r == Failure(Error(VectorStoreError, "Failed to delete vectors for " + videoId + ": "
                                                     + deleteApi(videoId, namespace).error))
                && calls == old(calls)
    {
      var outcome := deleteApi(videoId, namespace);
      if outcome.Failure? {
        return Failure(Error(VectorStoreError, "Failed to delete vectors for " + videoId + ": " + outcome.error));
      }
      calls := calls + [Deleted(videoId, namespace)];
      return Success(DeleteResult(true, videoId, namespace));
    }

    /** `get_index_stats()`: never raises; a failure gives the empty
        dictionary, here None. */
    function GetIndexStats(): (r: Option<IndexStats>)
      ensures r.Some? <==> statsApi().Success?
      ensures r.Some? ==> r.value == statsApi().value
    {
      match statsApi()
      case Success(s) => Some(s)
      case Failure(_) => None
    }
  }

  /** `store_embeddings_in_pinecone(embedded_chunks, video_id, namespace)`:
      a store with the settings' index, then one upsert with batches of 100. */
  method StoreEmbeddingsInPinecone(chunks: seq<Chunk>, namespace: string,
                                   upsertApi: UpsertApi, queryApi: QueryApi, deleteApi: DeleteApi, statsApi: StatsApi,
                                   defaultIndexName: string, defaultDimension: int)
    returns (r: Result<UpsertResult, Error>)
    ensures chunks == [] ==> r == Success(UpsertResult(0, None, None))
    ensures chunks != [] ==>
              var run := Run(upsertApi, Batches(Prepared(chunks), 100), namespace);
              && (run.failure.None? ==> r == Success(UpsertResult(|Prepared(chunks)|, Some(|chunks|), Some(namespace))))
              && (run.failure.Some? ==> r == Failure(Error(VectorStoreError, "Batch upsert failed: " + run.failure.value)))
  {
    var store := new Store(None, None, upsertApi, queryApi, deleteApi, statsApi, defaultIndexName, defaultDimension);
    r := store.UpsertChunks(chunks, namespace, 100);
  }

  /** The state of the batch loop at position `i`: `done` are the batches
      already sent, all accepted, and the rest of the batching goes on from
      `i`. */
  ghost predicate SentSoFar(api: UpsertApi, vs: seq<Vector>, size: nat, i: nat, done: seq<seq<Vector>>, namespace: string)
    requires size > 0 && i <= |vs|
  {
    && Batches(vs, size) == done + BatchesFrom(vs, i, size)
    && forall k :: 0 <= k < |done| ==> api(done[k], namespace).Success?
  }

  /** A refused batch ends the run with the batches before it. */
  lemma StopAt(api: UpsertApi, vs: seq<Vector>, size: nat, i: nat, done: seq<seq<Vector>>, namespace: string)
    requires size > 0 && i < |vs| && SentSoFar(api, vs, size, i, done, namespace)
    requires api(vs[i..BatchEnd(vs, i, size)], namespace).Failure?
    ensures Run(api, Batches(vs, size), namespace)
            == BatchRun(done, Some(api(vs[i..BatchEnd(vs, i, size)], namespace).error))
  {
    var end := BatchEnd(vs, i, size);
    RunStopsAt(api, done, vs[i..end], BatchesFrom(vs, end, size), namespace);
    assert Batches(vs, size) == done + [vs[i..end]] + BatchesFrom(vs, end, size);
  }

  /** An accepted batch moves the loop to the end of that batch. */
  lemma Advance(api: UpsertApi, vs: seq<Vector>, size: nat, i: nat, done: seq<seq<Vector>>, namespace: string)
    requires size > 0 && i < |vs| && SentSoFar(api, vs, size, i, done, namespace)
    requires api(vs[i..BatchEnd(vs, i, size)], namespace).Success?
    ensures SentSoFar(api, vs, size, BatchEnd(vs, i, size), done + [vs[i..BatchEnd(vs, i, size)]], namespace)
  {
    var end := BatchEnd(vs, i, size);
    var done' := done + [vs[i..end]];
    assert Batches(vs, size) == done' + BatchesFrom(vs, end, size);
    assert forall k :: 0 <= k < |done| ==> done'[k] == done[k];
  }

  /** At the end of the vectors every batch was sent. */
  lemma Finish(api: UpsertApi, vs: seq<Vector>, size: nat, done: seq<seq<Vector>>, namespace: string)
    requires size > 0 && SentSoFar(api, vs, size, |vs|, done, namespace)
    ensures Run(api, Batches(vs, size), namespace) == BatchRun(done, None)
  {
    assert done + [] == done;
    RunAccepted(api, done, namespace);
  }

  /** Batches the index accepts are all sent. */
  lemma {:induction false} RunAccepted(api: UpsertApi, bs: seq<seq<Vector>>, namespace: string)
    requires forall k :: 0 <= k < |bs| ==> api(bs[k], namespace).Success?
    ensures Run(api, bs, namespace) == BatchRun(bs, None)
    decreases |bs|
  {
    if bs != [] {
      RunAccepted(api, bs[1..], namespace);
      assert bs == [bs[0]] + bs[1..];
    }
  }

  /** The run stops at the first batch the index refuses: those before it
      are sent, and its failure is reported. */
  lemma {:induction false} RunStopsAt(api: UpsertApi, done: seq<seq<Vector>>, b: seq<Vector>,
                                      rest: seq<seq<Vector>>, namespace: string)
    requires forall k :: 0 <= k < |done| ==> api(done[k], namespace).Success?
    requires api(b, namespace).Failure?
    ensures Run(api, done + [b] + rest, namespace) == BatchRun(done, Some(api(b, namespace).error))
    decreases |done|
  {
    if done != [] {
      RunStopsAt(api, done[1..], b, rest, namespace);
      assert (done + [b] + rest)[1..] == done[1..] + [b] + rest;
      assert done == [done[0]] + done[1..];
    } else {
      assert done + [b] + rest == [b] + rest;
    }
  }

  lemma UpsertCallsSnoc(done: seq<seq<Vector>>, b: seq<Vector>, namespace: string)
    ensures UpsertCalls(done + [b], namespace) == UpsertCalls(done, namespace) + [Upserted(b, namespace)]
  {
    assert (done + [b])[..|done|] == done;
  }

  /** On success every prepared vector was sent exactly once, in order: the
      accepted batches flatten to the prepared vectors, so `upserted_count`
      is their number. */
  lemma {:induction false} SuccessSendsAll(api: UpsertApi, chunks: seq<Chunk>, size: nat, namespace: string)
    requires size > 0
    requires Run(api, Batches(Prepared(chunks), size), namespace).failure.None?
    ensures Flatten(Run(api, Batches(Prepared(chunks), size), namespace).sent) == Prepared(chunks)
  {
    BatchesCover(Prepared(chunks), size);
    RunShape(api, Batches(Prepared(chunks), size), namespace);
  }
}
