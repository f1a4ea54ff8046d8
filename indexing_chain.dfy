/** `IndexingChain` (chains/indexing_chain.py): load a transcript, split it,
    embed the chunks and store them, and the two maintenance operations
    on the index. The chain's settings and components are fixed at
    construction; the only state that changes is the vector store's record
    of what the index accepted. */
module IndexingChain {
  import opened Wrappers
  import opened Errors
  import opened Text
  import opened Records
  import Settings
  import Validators
  import DocumentLoader
  import TextSplitter
  import Embeddings
  import VectorStore

  /** The external services the components talk to. `pieces` is the
      LangChain splitter as configured with the chain's size and overlap. */
  datatype Services = Services(
    fetch: DocumentLoader.TranscriptApi,
    listing: DocumentLoader.ListingApi,
    pieces: TextSplitter.PieceSplitter,
    embed: Embeddings.EmbeddingApi,
    upsert: VectorStore.UpsertApi,
    query: VectorStore.QueryApi,
    delete: VectorStore.DeleteApi,
    stats: VectorStore.StatsApi)

  /** The dictionary `index_video` returns (its duration and timestamp are
      left out). */
  datatype IndexResult = IndexResult(videoId: string, status: string, numChunks: nat, numEmbeddings: nat,
                                     numStored: nat, transcriptChars: nat, namespace: string)

  /** The three counts `index_video` reports. */
  datatype Counts = Counts(numChunks: nat, numEmbeddings: nat, numStored: nat)

  /** The dictionary `check_if_indexed` returns: `num_chunks` on success,
      `error` when the store failed. */
  datatype IndexStatus = IndexStatus(videoId: string, isIndexed: bool, numChunks: Option<nat>, error: Option<string>)

  /** The IndexingError `index_video` raises for a failure of any step. */
  function Failed(videoId: string, e: Error): (r: Error)
    ensures r.kind == IndexingError && IsA(r.kind, RAGException)
    ensures IsPrefix("Indexing failed for video ", r.message)
  {
    Error(IndexingError, "Indexing failed for video " + videoId + ": " + e.message)
  }

  /** `[0.0] * n`. */
  function Zeros(n: int): (z: seq<real>)
    ensures |z| == if n <= 0 then 0 else n
    ensures forall i :: 0 <= i < |z| ==> z[i] == 0.0
  {
    if n <= 0 then [] else seq(n, _ => 0.0)
  }

  /** The chunk count of a transcript text: none for the empty text, else one
      per piece. */
  function ChunkCount(pieces: TextSplitter.PieceSplitter, text: string): nat {
    if text == [] then 0 else |pieces(text)|
  }

  /** The batch size `index_video` leaves `upsert_chunks` at. */
  const UpsertBatchSize: nat := 100

  /** The dictionary `split_transcript` reads off a loaded transcript. */
  function SplitInput(t: DocumentLoader.TranscriptData): TextSplitter.Transcript {
    TextSplitter.Transcript(Some(t.text), Some(t.videoId), Some(t.language))
  }

  /** Step 2 of `index_video`: the chunks of the loaded transcript, piece i
      as chunk i with the transcript's metadata. */
  function TranscriptChunks(pieces: TextSplitter.PieceSplitter, t: DocumentLoader.TranscriptData): (cs: seq<Chunk>)
    ensures |cs| == ChunkCount(pieces, t.text)
    ensures forall i :: 0 <= i < |cs| ==> cs[i].chunkId == Some(i) && cs[i].text == pieces(t.text)[i]
  {
    if t.text == [] then []
    else
      var ps := pieces(t.text);
      var m := TextSplitter.TranscriptMetadata(SplitInput(t));
      seq(|ps|, i requires 0 <= i < |ps| => TextSplitter.ChunkOf(ps[i], i, m))
  }

  /** Step 3: the chunks whose embedding succeeded, in order. */
  function EmbeddedChunks(pieces: TextSplitter.PieceSplitter, g: Embeddings.Generator,
                          t: DocumentLoader.TranscriptData): (es: seq<Chunk>)
    ensures |es| <= ChunkCount(pieces, t.text)
  {
    var cs := TranscriptChunks(pieces, t);
    Embeddings.Kept(cs, Embeddings.BatchOf(g, cs))
  }

  /** Step 4: the batches of 100 vectors sent to the index until the first
      refusal. */
  function UpsertRun(api: VectorStore.UpsertApi, embedded: seq<Chunk>, namespace: string): VectorStore.BatchRun {
    VectorStore.Run(api, VectorStore.Batches(VectorStore.Prepared(embedded), UpsertBatchSize), namespace)
  }

  /** The error `upsert_chunks` raises when a batch is refused. */
  function UpsertFailure(message: string): Error {
    Error(VectorStoreError, "Batch upsert failed: " + message)
  }

  /** What `index_video(video_id, namespace)` returns for the chain's loader,
      splitter, embedding generator and index: an invalid id escapes as
      InvalidVideoIDError, every later failure is an IndexingError, and a
      success reports every embedded chunk as stored. */
  function IndexVideoResult(l: DocumentLoader.Loader, pieces: TextSplitter.PieceSplitter, g: Embeddings.Generator,
                            api: VectorStore.UpsertApi, videoId: string, namespace: string): (r: Result<IndexResult, Error>)
    requires l.preferredLanguages != []
    ensures r.Failure? ==> r.error.kind == IndexingError || r.error.kind == InvalidVideoIDError
    ensures r.Failure? && r.error.kind == InvalidVideoIDError <==> Validators.ValidateVideoId(videoId).Failure?
    ensures r.Success? ==>
              Validators.ValidateVideoId(videoId).Success? && r.value.videoId == Validators.ValidateVideoId(videoId).value
              && r.value.status == "success" && r.value.namespace == namespace
              && r.value.numStored == r.value.numEmbeddings <= r.value.numChunks
  {
    match Validators.ValidateVideoId(videoId)
    case Failure(e) => Failure(e)
    case Success(v) =>
      match DocumentLoader.Load(l, v)
      case Failure(e) => Failure(Failed(v, e))
      case Success(t) =>
        var embedded := EmbeddedChunks(pieces, g, t);
        var run := UpsertRun(api, embedded, namespace);
        if run.failure.Some? then Failure(Failed(v, UpsertFailure(run.failure.value)))
        else Success(IndexResult(v, "success", ChunkCount(pieces, t.text), |embedded|, |embedded|, t.totalChars, namespace))
  }

  /** The log entries `index_video` leaves in the index: one per accepted
      batch, none when the id or the transcript fails. */
  function IndexVideoCalls(l: DocumentLoader.Loader, pieces: TextSplitter.PieceSplitter, g: Embeddings.Generator,
                           api: VectorStore.UpsertApi, videoId: string, namespace: string): (cs: seq<VectorStore.IndexCall>)
    requires l.preferredLanguages != []
    ensures forall k :: 0 <= k < |cs| ==> cs[k].Upserted? && cs[k].namespace == namespace
  {
    match Validators.ValidateVideoId(videoId)
    case Failure(_) => []
    case Success(v) =>
      match DocumentLoader.Load(l, v)
      case Failure(_) => []
      case Success(t) => VectorStore.UpsertCalls(UpsertRun(api, EmbeddedChunks(pieces, g, t), namespace).sent, namespace)
  }

  /** A successful indexing reports one chunk per piece and one embedding
      per chunk whose embedding call succeeded; the vectors in the logged
      batches are exactly those of the embedded chunks, in order, each once. */
  lemma IndexedCounts(l: DocumentLoader.Loader, pieces: TextSplitter.PieceSplitter, g: Embeddings.Generator,
                      api: VectorStore.UpsertApi, videoId: string, namespace: string)
    requires l.preferredLanguages != []
    requires IndexVideoResult(l, pieces, g, api, videoId, namespace).Success?
    ensures var v := Validators.ValidateVideoId(videoId).value;
            var t := DocumentLoader.Load(l, v).value;
            var cs := TranscriptChunks(pieces, t);
            var r := IndexVideoResult(l, pieces, g, api, videoId, namespace).value;
            var calls := IndexVideoCalls(l, pieces, g, api, videoId, namespace);
            && r.numChunks == |cs| == ChunkCount(pieces, t.text)
            && r.numEmbeddings == Embeddings.Successes(Embeddings.BatchOf(g, cs))
            && VectorStore.Flatten(UpsertRun(api, EmbeddedChunks(pieces, g, t), namespace).sent)
               == VectorStore.Prepared(EmbeddedChunks(pieces, g, t))
            && |calls| == |UpsertRun(api, EmbeddedChunks(pieces, g, t), namespace).sent|
            && |VectorStore.Prepared(EmbeddedChunks(pieces, g, t))| == r.numStored
  {
    var v := Validators.ValidateVideoId(videoId).value;
    var t := DocumentLoader.Load(l, v).value;
    var cs := TranscriptChunks(pieces, t);
    var embedded := EmbeddedChunks(pieces, g, t);
    Embeddings.KeptCount(cs, Embeddings.BatchOf(g, cs));
    Embeddings.KeptHaveEmbeddings(cs, Embeddings.BatchOf(g, cs));
    VectorStore.PreparedAll(embedded);
    VectorStore.SuccessSendsAll(api, embedded, UpsertBatchSize, namespace);
  }

  /** When the id is valid, the transcript loads, every embedding call
      succeeds and the index accepts every batch, indexing succeeds and
      stores every chunk. */
  lemma IndexSucceedsWhenServicesDo(l: DocumentLoader.Loader, pieces: TextSplitter.PieceSplitter, g: Embeddings.Generator,
                                    api: VectorStore.UpsertApi, videoId: string, namespace: string)
    requires l.preferredLanguages != []
    requires Validators.ValidateVideoId(videoId).Success?
    requires DocumentLoader.Load(l, Validators.ValidateVideoId(videoId).value).Success?
    requires var t := DocumentLoader.Load(l, Validators.ValidateVideoId(videoId).value).value;
             forall i :: 0 <= i < |pieces(t.text)| ==> Embeddings.EmbeddingOrNone(g, pieces(t.text)[i]).Some?
    requires forall b :: api(b, namespace).Success?
    ensures var r := IndexVideoResult(l, pieces, g, api, videoId, namespace);
            var t := DocumentLoader.Load(l, Validators.ValidateVideoId(videoId).value).value;
            r.Success? && r.value.numChunks == r.value.numEmbeddings == r.value.numStored == ChunkCount(pieces, t.text)
  {
    var t := DocumentLoader.Load(l, Validators.ValidateVideoId(videoId).value).value;
    var cs := TranscriptChunks(pieces, t);
    var es := Embeddings.BatchOf(g, cs);
    forall i | 0 <= i < |es|
      ensures es[i].Some?
    {
      assert cs[i].text == pieces(t.text)[i];
    }
    Embeddings.KeptAll(cs, es);
    var bs := VectorStore.Batches(VectorStore.Prepared(EmbeddedChunks(pieces, g, t)), UpsertBatchSize);
    VectorStore.RunAccepted(api, bs, namespace);
  }

  class Chain {
    const chunkSize: int
    const chunkOverlap: int
    const embeddingDimensions: int
    const loader: DocumentLoader.Loader
    const splitter: TextSplitter.Splitter
    const embedder: Embeddings.Generator
    const store: VectorStore.Store

    /** `__init__`: each override falls back on the settings when it is None
        or 0; the components are built from the resolved values. */
    constructor (chunkSize: Option<int>, chunkOverlap: Option<int>, embeddingDimensions: Option<int>,
                 services: Services, cfg: Settings.Config)
      ensures this.chunkSize == if chunkSize.Some? && chunkSize.value != 0 then chunkSize.value else cfg.chunkSize
      ensures this.chunkOverlap == if chunkOverlap.Some? && chunkOverlap.value != 0 then chunkOverlap.value else cfg.chunkOverlap
      ensures this.embeddingDimensions ==
                if embeddingDimensions.Some? && embeddingDimensions.value != 0 then embeddingDimensions.value
                else cfg.embeddingDimensions
      ensures loader == DocumentLoader.NewLoader(None, services.fetch, services.listing)
      ensures splitter.pieces == services.pieces
      ensures embedder == Embeddings.NewGenerator(None, Some(this.embeddingDimensions), services.embed,
                                                  cfg.openaiEmbeddingModel, cfg.embeddingDimensions)
      ensures store.upsertApi == services.upsert && store.queryApi == services.query && store.deleteApi == services.delete
      ensures fresh(store) && store.calls == []
    {
      var size := if chunkSize.Some? && chunkSize.value != 0 then chunkSize.value else cfg.chunkSize;
      var overlap := if chunkOverlap.Some? && chunkOverlap.value != 0 then chunkOverlap.value else cfg.chunkOverlap;
      var dims := if embeddingDimensions.Some? && embeddingDimensions.value != 0 then embeddingDimensions.value
                  else cfg.embeddingDimensions;
      this.chunkSize := size;
      this.chunkOverlap := overlap;
      this.embeddingDimensions := dims;
      loader := DocumentLoader.NewLoader(None, services.fetch, services.listing);
      splitter := TextSplitter.NewSplitter(Some(size), Some(overlap), None, services.pieces, cfg.chunkSize, cfg.chunkOverlap);
      embedder := Embeddings.NewGenerator(None, Some(dims), services.embed, cfg.openaiEmbeddingModel, cfg.embeddingDimensions);
      store := new VectorStore.Store(None, None, services.upsert, services.query, services.delete, services.stats,
                                     cfg.pineconeIndexName, cfg.embeddingDimensions);
    }

    /** `index_video(video_id, namespace)`: the id is validated outside the
        try, so its InvalidVideoIDError escapes as is; any later failure is
        wrapped as IndexingError. */
    method IndexVideo(videoId: string, namespace: string) returns (r: Result<IndexResult, Error>)
      requires loader.preferredLanguages != []
      modifies store
      ensures r == IndexVideoResult(loader, splitter.pieces, embedder, store.upsertApi, videoId, namespace)
      ensures store.calls == old(store.calls) + IndexVideoCalls(loader, splitter.pieces, embedder, store.upsertApi, videoId, namespace)
    {
      var checked := Validators.ValidateVideoId(videoId);
      if checked.Failure? {
        return Failure(checked.error);
      }
      var v := checked.value;
      var loaded := DocumentLoader.Load(loader, v);
      if loaded.Failure? {
        return Failure(Failed(v, loaded.error));
      }
      var t := loaded.value;
      var counts := StoreTranscript(t, namespace);
      if counts.Failure? {
        return Failure(Failed(v, counts.error));
      }
      var c := counts.value;
      return Success(IndexResult(v, "success", c.numChunks, c.numEmbeddings, c.numStored, t.totalChars, namespace));
    }

    /** Steps 2 to 4 of `index_video` for a loaded transcript: split, embed,
        then upsert in batches of 100. Only the upsert can fail; the counts
        are the chunks, the embedded chunks and the vectors stored. */
    method StoreTranscript(t: DocumentLoader.TranscriptData, namespace: string) returns (r: Result<Counts, Error>)
      modifies store
      ensures var embedded := EmbeddedChunks(splitter.pieces, embedder, t);
              var run := UpsertRun(store.upsertApi, embedded, namespace);
              && store.calls == old(store.calls) + VectorStore.UpsertCalls(run.sent, namespace)
              && (run.failure.None? ==> r == Success(Counts(ChunkCount(splitter.pieces, t.text), |embedded|, |embedded|)))
              && (run.failure.Some? ==> r == Failure(UpsertFailure(run.failure.value)))
    {
      var chunks := TextSplitter.SplitTranscript(splitter, SplitInput(t));
      assert chunks == TranscriptChunks(splitter.pieces, t);
      var embedded := Embeddings.EmbedChunks(embedder, chunks);
      Embeddings.KeptHaveEmbeddings(chunks, Embeddings.BatchOf(embedder, chunks));
      VectorStore.PreparedAll(embedded);
      if embedded == [] {
        assert VectorStore.Batches(VectorStore.Prepared(embedded), UpsertBatchSize) == [];
      }
      var stored := store.UpsertChunks(embedded, namespace, UpsertBatchSize);
      if stored.Failure? {
        return Failure(stored.error);
      }
      return Success(Counts(|chunks|, |embedded|, stored.value.upsertedCount));
    }

    /** `check_if_indexed(video_id, namespace)`: one query for a single match
        with the video's filter and an all-zero vector. It never raises after
        validation: a store failure reports "not indexed" with the error. */
    method CheckIfIndexed(videoId: string, namespace: string) returns (r: Result<IndexStatus, Error>)
      ensures Validators.ValidateVideoId(videoId).Failure? ==> r == Failure(Validators.ValidateVideoId(videoId).error)
      ensures Validators.ValidateVideoId(videoId).Success? ==>
                var v := Validators.ValidateVideoId(videoId).value;
                var dummy := Zeros(embeddingDimensions);
                r.Success? && r.value.videoId == v
                && (dummy == [] ==>
                      r.value == IndexStatus(v, false, None, Some("Query embedding cannot be empty")))
                && (dummy != [] ==>
                      var found := store.queryApi(dummy, 1, namespace, Some(VideoFilter(v)));
                      && (found.Success? ==>
                            r.value.isIndexed == (|found.value| > 0) && r.value.numChunks == Some(|found.value|)
                            && r.value.error.None?)
                      && (found.Failure? ==>
                            r.value == IndexStatus(v, false, None, Some("Failed to query Pinecone: " + found.error))))
    {
      var checked := Validators.ValidateVideoId(videoId);
      if checked.Failure? {
        return Failure(checked.error);
      }
      var v := checked.value;
      var results := store.Query(Zeros(embeddingDimensions), 1, namespace, Some(VideoFilter(v)));
      if results.Failure? {
        return Success(IndexStatus(v, false, None, Some(results.error.message)));
      }
      var isIndexed := |results.value| > 0;
      return Success(IndexStatus(v, isIndexed, Some(if isIndexed then |results.value| else 0), None));
    }

    /** `delete_video_index(video_id, namespace)`: a store failure is wrapped
        as IndexingError; an invalid id is not. */
    method DeleteVideoIndex(videoId: string, namespace: string) returns (r: Result<VectorStore.DeleteResult, Error>)
      modifies store
      ensures Validators.ValidateVideoId(videoId).Failure? ==>
                r == Failure(Validators.ValidateVideoId(videoId).error) && store.calls == old(store.calls)
      ensures Validators.ValidateVideoId(videoId).Success? ==>
                var v := Validators.ValidateVideoId(videoId).value;
                var outcome := store.deleteApi(v, namespace);
                && (outcome.Success? ==>
                      r == Success(VectorStore.DeleteResult(true, v, namespace))
                      && store.calls == old(store.calls) + [VectorStore.Deleted(v, namespace)])
                && (outcome.Failure? ==>
                      r.Failure? && r.error.kind == IndexingError
                      && IsPrefix("Failed to delete index for " + v + ": ", r.error.message)
                      && store.calls == old(store.calls))
    {
      var checked := Validators.ValidateVideoId(videoId);
      if checked.Failure? {
        return Failure(checked.error);
      }
      var v := checked.value;
      var deleted := store.DeleteByVideoId(v, namespace);
      if deleted.Failure? {
        return Failure(Error(IndexingError, "Failed to delete index for " + v + ": " + deleted.error.message));
      }
      return deleted;
    }
  }

  /** `index_youtube_video(video_id, chunk_size, chunk_overlap)`: a fresh
      chain, then `index_video` in the default namespace; the chunk size and
      overlap reach it through the splitter `services.pieces` stands for. */
  method IndexYoutubeVideo(videoId: string, chunkSize: Option<int>, chunkOverlap: Option<int>,
                           services: Services, cfg: Settings.Config)
    returns (r: Result<IndexResult, Error>)
    ensures r == IndexVideoResult(DocumentLoader.NewLoader(None, services.fetch, services.listing), services.pieces,
                                  Embeddings.NewGenerator(None, Some(cfg.embeddingDimensions), services.embed,
                                                          cfg.openaiEmbeddingModel, cfg.embeddingDimensions),
                                  services.upsert, videoId, "")
  {
    var chain := new Chain(chunkSize, chunkOverlap, None, services, cfg);
    r := chain.IndexVideo(videoId, "");
  }
}
