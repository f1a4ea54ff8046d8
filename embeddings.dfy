/** `EmbeddingGenerator` (indexing/embeddings.py): one embedding per text
    through the OpenAI embeddings API, a batch that records failures as
    None, and chunks extended with their embedding. The API is a function
    value; the generator's settings never change after construction. */
module Embeddings {
  import opened Wrappers
  import opened Errors
  import opened Text
  import opened Records

  /** `client.embeddings.create(input, model, dimensions).data[0].embedding`,
      or the text of the exception raised. */
  type EmbeddingApi = (string, string, int) -> Result<seq<real>, string>

  datatype Generator = Generator(model: string, dimensions: int, api: EmbeddingApi)

  /** `__init__`: `model or default` and `dimensions or default`. */
  function NewGenerator(model: Option<string>, dimensions: Option<int>, api: EmbeddingApi,
                        defaultModel: string, defaultDimensions: int): (g: Generator)
    ensures g.model == if model.Some? && model.value != [] then model.value else defaultModel
    ensures g.dimensions == if dimensions.Some? && dimensions.value != 0 then dimensions.value else defaultDimensions
    ensures g.api == api
  {
    Generator(if model.Some? && model.value != [] then model.value else defaultModel,
              if dimensions.Some? && dimensions.value != 0 then dimensions.value else defaultDimensions,
              api)
  }

  /** `not text or not text.strip()`. */
  predicate Blank(text: string) {
    text == [] || Strip(text) == []
  }

  /** Blank means: every character is whitespace. */
  lemma BlankIsAllSpace(text: string)
    ensures Blank(text) <==> forall i :: 0 <= i < |text| ==> IsSpace(text[i])
  {
    StripShape(text);
  }

  /** `generate_embedding(text)`: blank text is refused before any API call;
      every API failure becomes EmbeddingGenerationError. */
  function GenerateEmbedding(g: Generator, text: string): (r: Result<seq<real>, Error>)
    ensures Blank(text) ==> r == Failure(Error(EmbeddingGenerationError, "Cannot generate embedding for empty text"))
    ensures !Blank(text) && g.api(text, g.model, g.dimensions).Success? ==> r == Success(g.api(text, g.model, g.dimensions).value)
    ensures !Blank(text) && g.api(text, g.model, g.dimensions).Failure? ==>
              r == Failure(Error(EmbeddingGenerationError, "Failed to generate embedding: " + g.api(text, g.model, g.dimensions).error))
  {
    if Blank(text) then Failure(Error(EmbeddingGenerationError, "Cannot generate embedding for empty text"))
    else match g.api(text, g.model, g.dimensions)
      case Success(e) => Success(e)
      case Failure(m) => Failure(Error(EmbeddingGenerationError, "Failed to generate embedding: " + m))
  }

  /** Every failure of `generate_embedding` is an EmbeddingGenerationError, an
      IndexingError and so a RAGException; a blank text fails whatever the
      API would return. */
  lemma EmbeddingFailuresAreIndexingErrors(g: Generator, api2: EmbeddingApi, text: string)
    ensures GenerateEmbedding(g, text).Failure? ==>
              GenerateEmbedding(g, text).error.kind == EmbeddingGenerationError
              && IsA(GenerateEmbedding(g, text).error.kind, IndexingError)
    ensures Blank(text) ==> GenerateEmbedding(g, text) == GenerateEmbedding(g.(api := api2), text)
  {
  }

  /** The batch result for one text: the embedding, or None on failure. */
  function EmbeddingOrNone(g: Generator, text: string): (e: Option<seq<real>>)
    ensures e.Some? <==> GenerateEmbedding(g, text).Success?
    ensures e.Some? ==> e.value == GenerateEmbedding(g, text).value
  {
    var r := GenerateEmbedding(g, text);
    if r.Success? then Some(r.value) else None
  }

  /** `generate_embeddings_batch(texts)`: one entry per text, in order; a
      failure leaves None in its place and the batch goes on. */
  method GenerateEmbeddingsBatch(g: Generator, texts: seq<string>) returns (embeddings: seq<Option<seq<real>>>)
    ensures |embeddings| == |texts|
    ensures forall i :: 0 <= i < |texts| ==> embeddings[i] == EmbeddingOrNone(g, texts[i])
  {
    if texts == [] {
      return [];
    }
    embeddings := [];
    var idx := 0;
    while idx < |texts|
      invariant 0 <= idx <= |texts| && |embeddings| == idx
      invariant forall i :: 0 <= i < idx ==> embeddings[i] == EmbeddingOrNone(g, texts[i])
    {
      var r := GenerateEmbedding(g, texts[idx]);
      if r.Success? {
        embeddings := embeddings + [Some(r.value)];
      } else {
        embeddings := embeddings + [None];
      }
      idx := idx + 1;
    }
  }

  /** A blank text always leaves None in the batch. */
  lemma BlankTextsFail(g: Generator, text: string)
    requires Blank(text)
    ensures EmbeddingOrNone(g, text).None?
  {
  }

  /** `chunk.copy()` with `embedding` and `embedding_dim` set. */
  function WithEmbedding(c: Chunk, e: seq<real>): (d: Chunk)
    ensures d.embedding == Some(e) && d.embeddingDim == Some(|e|)
    ensures d.(embedding := c.embedding, embeddingDim := c.embeddingDim) == c
  {
    c.(embedding := Some(e), embeddingDim := Some(|e|))
  }

  /** The chunks kept by `embed_chunks`, in order: those whose embedding is
      not None. */
  function Kept(chunks: seq<Chunk>, es: seq<Option<seq<real>>>): (r: seq<Chunk>)
    requires |chunks| == |es|
    ensures |r| <= |chunks|
  {
    if chunks == [] then []
    else
      var n := |chunks| - 1;
      Kept(chunks[..n], es[..n]) + (if es[n].Some? then [WithEmbedding(chunks[n], es[n].value)] else [])
  }

  function Texts(chunks: seq<Chunk>): (r: seq<string>)
    ensures |r| == |chunks| && forall i :: 0 <= i < |chunks| ==> r[i] == chunks[i].text
  {
    seq(|chunks|, i requires 0 <= i < |chunks| => chunks[i].text)
  }

  /** The batch `embed_chunks` computes for its chunks' texts. */
  function BatchOf(g: Generator, chunks: seq<Chunk>): (es: seq<Option<seq<real>>>)
    ensures |es| == |chunks| && forall i :: 0 <= i < |chunks| ==> es[i] == EmbeddingOrNone(g, chunks[i].text)
  {
    seq(|chunks|, i requires 0 <= i < |chunks| => EmbeddingOrNone(g, chunks[i].text))
  }

  /** `embed_chunks(chunks)`: embeds the texts as a batch, then keeps the
      chunks that got an embedding, in input order. */
  method EmbedChunks(g: Generator, chunks: seq<Chunk>) returns (embedded: seq<Chunk>)
    ensures embedded == Kept(chunks, BatchOf(g, chunks))
  {
    if chunks == [] {
      return [];
    }
    var embeddings := GenerateEmbeddingsBatch(g, Texts(chunks));
    assert embeddings == BatchOf(g, chunks);
    embedded := AttachEmbeddings(chunks, embeddings);
  }

  /** The loop over `zip(chunks, embeddings)`. */
  method AttachEmbeddings(chunks: seq<Chunk>, embeddings: seq<Option<seq<real>>>) returns (embedded: seq<Chunk>)
    requires |chunks| == |embeddings|
    ensures embedded == Kept(chunks, embeddings)
  {
    embedded := [];
    var idx := 0;
    while idx < |chunks|
      invariant 0 <= idx <= |chunks|
      invariant embedded == Kept(chunks[..idx], embeddings[..idx])
    {
      assert chunks[..idx + 1][..idx] == chunks[..idx] && embeddings[..idx + 1][..idx] == embeddings[..idx];
      if embeddings[idx].Some? {
        embedded := embedded + [WithEmbedding(chunks[idx], embeddings[idx].value)];
      }
      idx := idx + 1;
    }
    assert chunks[..idx] == chunks && embeddings[..idx] == embeddings;
  }

  /** The number of embeddings that did not fail. */
  function Successes(es: seq<Option<seq<real>>>): nat {
    if es == [] then 0 else Successes(es[..|es| - 1]) + (if es[|es| - 1].Some? then 1 else 0)
  }

  /** Exactly one output chunk per successful embedding. */
  lemma {:induction false} KeptCount(chunks: seq<Chunk>, es: seq<Option<seq<real>>>)
    requires |chunks| == |es|
    ensures |Kept(chunks, es)| == Successes(es)
    decreases |chunks|
  {
    if chunks != [] {
      KeptCount(chunks[..|chunks| - 1], es[..|es| - 1]);
    }
  }

  /** The positions of the successful embeddings, in increasing order. */
  function SomePositions(es: seq<Option<seq<real>>>): (ps: seq<nat>)
    ensures forall j :: 0 <= j < |ps| ==> ps[j] < |es| && es[ps[j]].Some?
    ensures forall j, k :: 0 <= j < k < |ps| ==> ps[j] < ps[k]
    ensures forall i :: 0 <= i < |es| && es[i].Some? ==> i in ps
  {
    if es == [] then []
    else
      var n := |es| - 1;
      var front := SomePositions(es[..n]);
      assert forall j :: 0 <= j < |front| ==> es[front[j]] == es[..n][front[j]];
      front + (if es[n].Some? then [n] else [])
  }

  /** The j-th output chunk is the input chunk at the j-th successful
      position, with its own embedding: the output keeps the input order,
      takes every successful chunk once and nothing else. */
  lemma {:induction false} KeptFromInputs(chunks: seq<Chunk>, es: seq<Option<seq<real>>>)
    requires |chunks| == |es|
    ensures var ps := SomePositions(es);
            |Kept(chunks, es)| == |ps|
            && forall j :: 0 <= j < |ps| ==> Kept(chunks, es)[j] == WithEmbedding(chunks[ps[j]], es[ps[j]].value)
    decreases |chunks|
  {
    if chunks != [] {
      var n := |chunks| - 1;
      var c', e' := chunks[..n], es[..n];
      KeptFromInputs(c', e');
      var front := Kept(c', e');
      var ps' := SomePositions(e');
      forall j | 0 <= j < |ps'|
        ensures front[j] == WithEmbedding(chunks[ps'[j]], es[ps'[j]].value)
      {
        assert c'[ps'[j]] == chunks[ps'[j]] && e'[ps'[j]] == es[ps'[j]];
      }
    }
  }

  /** With no failure, chunk i of the output is chunk i of the input with
      its embedding. */
  lemma {:induction false} KeptAll(chunks: seq<Chunk>, es: seq<Option<seq<real>>>)
    requires |chunks| == |es| && forall i :: 0 <= i < |es| ==> es[i].Some?
    ensures |Kept(chunks, es)| == |chunks|
    ensures forall i :: 0 <= i < |chunks| ==> Kept(chunks, es)[i] == WithEmbedding(chunks[i], es[i].value)
    decreases |chunks|
  {
    if chunks != [] {
      var n := |chunks| - 1;
      KeptAll(chunks[..n], es[..n]);
    }
  }

  /** `generate_embeddings_for_chunks(chunks, model, dimensions)`. */
  method GenerateEmbeddingsForChunks(chunks: seq<Chunk>, model: Option<string>, dimensions: Option<int>,
                                     api: EmbeddingApi, defaultModel: string, defaultDimensions: int)
    returns (embedded: seq<Chunk>)
    ensures embedded == Kept(chunks, BatchOf(NewGenerator(model, dimensions, api, defaultModel, defaultDimensions), chunks))
    ensures |embedded| <= |chunks|
    ensures forall j :: 0 <= j < |embedded| ==>
              embedded[j].embedding.Some? && embedded[j].embeddingDim == Some(|embedded[j].embedding.value|)
  {
    var g := NewGenerator(model, dimensions, api, defaultModel, defaultDimensions);
    embedded := EmbedChunks(g, chunks);
    KeptHaveEmbeddings(chunks, BatchOf(g, chunks));
  }

  /** Every chunk `embed_chunks` keeps carries an embedding and its size. */
  lemma KeptHaveEmbeddings(chunks: seq<Chunk>, es: seq<Option<seq<real>>>)
    requires |chunks| == |es|
    ensures forall j :: 0 <= j < |Kept(chunks, es)| ==>
              Kept(chunks, es)[j].embedding.Some?
              && Kept(chunks, es)[j].embeddingDim == Some(|Kept(chunks, es)[j].embedding.value|)
  {
    KeptFromInputs(chunks, es);
  }
}
