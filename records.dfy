/** The dictionaries that flow through the pipeline, as records whose
    optional fields stand for keys that may be absent. */
module Records {
  import opened Wrappers

  /** A metadata value as stored in Pinecone: the core only writes strings and ints. */
  datatype MetaValue = MStr(s: string) | MInt(i: int)

  type Metadata = map<string, MetaValue>

  /** The only metadata filter the core builds: `{"video_id": id}`. */
  datatype Filter = VideoFilter(videoId: string)

  /** A retrieval record (a search hit, a merged hybrid entry, a formatted result).
      Each field is one dictionary key; None means the key is absent. */
  datatype Doc = Doc(
    id: Option<string>,
    text: Option<string>,
    score: Option<real>,
    videoId: Option<string>,
    chunkId: Option<int>,
    metadata: Option<Metadata>,
    scoreNormalized: Option<real>,
    searchType: Option<string>,
    hybridScore: Option<real>,
    denseScore: Option<real>,
    sparseScore: Option<real>,
    originalQuery: Option<string>,
    rewrittenQuery: Option<string>)

  /** A dictionary with none of the keys above. */
  const NoKeys: Doc := Doc(None, None, None, None, None, None, None, None, None, None, None, None, None)

  /** An indexing chunk as produced by the splitter and extended by the embedder.
      `text` is always present (every reader indexes it with `chunk["text"]`). */
  datatype Chunk = Chunk(
    text: string,
    chunkId: Option<int>,
    chunkLength: Option<int>,
    metadata: Option<Metadata>,
    embedding: Option<seq<real>>,
    embeddingDim: Option<int>)
}
