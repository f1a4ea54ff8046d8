/** `QAChain` (chains/qa_chain.py): retrieve, build the prompt, generate,
    then attach citations. The chain's fields are fixed at construction, so
    a chain is a value; its retriever and its LLM client are the function
    values of the retriever and LLM modules. */
module QaChain {
  import opened Wrappers
  import opened Errors
  import opened Text
  import opened Records
  import BaseRetriever
  import PromptTemplates
  import LlmClient
  import Citations

  datatype RetrieverKind = Simple | Rewriting | Hybrid

  /** The retriever class for a `retriever_type` name. */
  function KindOf(retrieverType: string): (k: Option<RetrieverKind>)
    ensures k.Some? <==> retrieverType in ["simple", "rewriting", "hybrid"]
    ensures k == Some(Simple) <==> retrieverType == "simple"
    ensures k == Some(Rewriting) <==> retrieverType == "rewriting"
    ensures k == Some(Hybrid) <==> retrieverType == "hybrid"
  {
    if retrieverType == "simple" then Some(Simple)
    else if retrieverType == "rewriting" then Some(Rewriting)
    else if retrieverType == "hybrid" then Some(Hybrid)
    else None
  }

  /** Building a retriever of a kind with a `top_k`. */
  type RetrieverFactory = (RetrieverKind, int) -> BaseRetriever.RetrieveFn

  /** A prompt builder: question, chunks and whether citations are asked for. */
  type PromptBuilder = (string, seq<Doc>, bool) -> string

  /** The chain's state. `buildPrompt` is the module-level `build_qa_prompt`
      the chain calls; `NewChain` sets it to `PromptTemplates.BuildQaPrompt`,
      and the pipeline is stated for whatever builder the chain holds. */
  datatype Chain = Chain(retrieverType: string, topK: int, includeCitations: bool,
                         retriever: BaseRetriever.RetrieveFn, llm: LlmClient.Client, buildPrompt: PromptBuilder)

  /** `QAChain.__init__`: an unknown `retriever_type` raises ValueError before
      anything else is built; the LLM client gets the chain's temperature and
      budget (so a temperature of 0.0 becomes the settings default). */
  function NewChain(retrieverType: string, topK: int, includeCitations: bool, temperature: real, maxTokens: int,
                    retrievers: RetrieverFactory, chat: LlmClient.ChatApi, stream: LlmClient.StreamApi,
                    defaultModel: string, defaultTemperature: real): (r: Result<Chain, Error>)
    ensures r.Failure? <==> KindOf(retrieverType).None?
    ensures r.Failure? ==>
              r.error == Error(ValueError, "Invalid retriever_type: " + retrieverType
                                           + ". Must be 'simple', 'rewriting', or 'hybrid'")
    ensures r.Success? ==>
              r.value.retriever == retrievers(KindOf(retrieverType).value, topK)
              && r.value.retrieverType == retrieverType && r.value.topK == topK
              && r.value.includeCitations == includeCitations
              && r.value.llm == LlmClient.NewClient(None, Some(temperature), maxTokens, chat, stream,
                                                   defaultModel, defaultTemperature)
              && r.value.buildPrompt == PromptTemplates.BuildQaPrompt
  {
    match KindOf(retrieverType)
    case None =>
      Failure(Error(ValueError, "Invalid retriever_type: " + retrieverType
                                + ". Must be 'simple', 'rewriting', or 'hybrid'"))
    case Some(kind) =>
      Success(Chain(retrieverType, topK, includeCitations, retrievers(kind, topK),
                    LlmClient.NewClient(None, Some(temperature), maxTokens, chat, stream, defaultModel, defaultTemperature),
                    PromptTemplates.BuildQaPrompt))
  }

  /** `top_k or self.top_k`: None and 0 both fall back to the chain's value. */
  function ChainTopK(c: Chain, topK: Option<int>): (k: int)
    ensures topK.Some? && topK.value != 0 ==> k == topK.value
    ensures topK.None? || topK.value == 0 ==> k == c.topK
  {
    if topK.Some? && topK.value != 0 then topK.value else c.topK
  }

  /** The chain and the retrievers resolve an override of 0 differently: the
      chain asks for its own `top_k`, a retriever called directly asks for 0. */
  lemma ZeroTopKDiffers(c: Chain)
    requires c.topK != 0
    ensures ChainTopK(c, Some(0)) == c.topK
    ensures BaseRetriever.GetTopK(Some(0), c.topK) == 0
    ensures forall k :: k != 0 ==> ChainTopK(c, Some(k)) == BaseRetriever.GetTopK(Some(k), c.topK)
  {
  }

  /** The filter is passed only for a truthy video id: None and "" search
      every video. */
  function FilterFor(videoId: Option<string>): (f: Option<Filter>)
    ensures f.Some? <==> videoId.Some? && videoId.value != []
    ensures f.Some? ==> f.value.videoId == videoId.value
  {
    if videoId.Some? && videoId.value != [] then Some(VideoFilter(videoId.value)) else None
  }

  const NotFoundAnswer: string := "I couldn't find any relevant information to answer this question."

  /** The result dictionary of `answer`. An absent key is None; `timed`
      says whether `duration_seconds` and `timestamp` are present. */
  datatype Answer = Answer(question: string, answer: string, citations: Option<seq<nat>>,
                           sources: Option<seq<Citations.Source>>, numSources: Option<nat>,
                           retrievedChunks: Option<nat>, retrieverType: string, timed: bool)

  /** The message of the RAGException `answer` raises: the question cut to 50
      characters, then the original message. */
  function Wrapped(question: string, e: Error): (r: Error)
    ensures r.kind == RAGException && !IsA(r.kind, GenerationError) && !IsA(r.kind, RetrievalError)
    ensures IsPrefix("QA pipeline failed for question '", r.message)
  {
    var head := if |question| <= 50 then question else question[..50];
    Error(RAGException, "QA pipeline failed for question '" + head + "...': " + e.message)
  }

  /** What `answer(question, video_id, top_k)` returns: the retrieval failure
      wrapped, the fixed answer for no chunks, the generation failure wrapped,
      or the generated answer with its citations and sources when the chain
      asks for them. Every failure is a plain RAGException. */
  function AnswerSpec(c: Chain, question: string, videoId: Option<string>, topK: Option<int>): (r: Result<Answer, Error>)
    ensures r.Failure? ==> r.error.kind == RAGException
    ensures r.Success? ==> r.value.question == question && r.value.retrieverType == c.retrieverType
    ensures r.Success? && r.value.citations.Some? ==>
              r.value.sources.Some? && |r.value.sources.value| <= |r.value.citations.value|
              && r.value.numSources == Some(|r.value.sources.value|)
    ensures r.Success? && r.value.retrievedChunks.None? ==> r.value.answer == NotFoundAnswer
  {
    match c.retriever(question, Some(ChainTopK(c, topK)), FilterFor(videoId))
    case Failure(e) => Failure(Wrapped(question, e))
    case Success(chunks) =>
      if chunks == [] then Success(Answer(question, NotFoundAnswer, None, Some([]), Some(0), None, c.retrieverType, false))
      else
        match LlmClient.Generate(c.llm, c.buildPrompt(question, chunks, c.includeCitations), None, None)
        case Failure(e) => Failure(Wrapped(question, e))
        case Success(text) =>
          if c.includeCitations then
            var cited := Citations.Extract(text);
            var sources := Citations.Sources(cited, Citations.ChunkMap(chunks));
            NumSourcesBounded(text, chunks);
            Success(Answer(question, text, Some(cited), Some(sources), Some(|sources|), Some(|chunks|), c.retrieverType, true))
          else Success(Answer(question, text, None, None, None, Some(|chunks|), c.retrieverType, true))
  }

  /** `answer(question, video_id, top_k)`. */
  method AnswerQuestion(c: Chain, question: string, videoId: Option<string>, topK: Option<int>)
    returns (r: Result<Answer, Error>)
    ensures r == AnswerSpec(c, question, videoId, topK)
    ensures r.Failure? ==> r.error.kind == RAGException
    ensures var fetched := c.retriever(question, Some(ChainTopK(c, topK)), FilterFor(videoId));
            && (fetched.Failure? ==> r == Failure(Wrapped(question, fetched.error)))
            && (fetched == Success([]) ==>
                  r == Success(Answer(question, NotFoundAnswer, None, Some([]), Some(0), None, c.retrieverType, false)))
            && (fetched.Success? && fetched.value != [] ==>
                  var chunks := fetched.value;
                  var generated := LlmClient.Generate(c.llm, c.buildPrompt(question, chunks, c.includeCitations), None, None);
                  && (generated.Failure? ==> r == Failure(Wrapped(question, generated.error)))
                  && (generated.Success? && c.includeCitations ==>
                        var cited := Citations.Extract(generated.value);
                        var sources := Citations.Sources(cited, Citations.ChunkMap(chunks));
                        r == Success(Answer(question, generated.value, Some(cited), Some(sources), Some(|sources|),
                                            Some(|chunks|), c.retrieverType, true)))
                  && (generated.Success? && !c.includeCitations ==>
                        r == Success(Answer(question, generated.value, None, None, None,
                                            Some(|chunks|), c.retrieverType, true))))
  {
    var k := ChainTopK(c, topK);
    var fetched := c.retriever(question, Some(k), FilterFor(videoId));
    if fetched.Failure? {
      return Failure(Wrapped(question, fetched.error));
    }
    var chunks := fetched.value;
    if chunks == [] {
      return Success(Answer(question, NotFoundAnswer, None, Some([]), Some(0), None, c.retrieverType, false));
    }
    var prompt := c.buildPrompt(question, chunks, c.includeCitations);
    var generated := LlmClient.Generate(c.llm, prompt, None, None);
    if generated.Failure? {
      return Failure(Wrapped(question, generated.error));
    }
    if c.includeCitations {
      var info := Citations.AddSourceInfo(generated.value, chunks);
      r := Success(Answer(question, info.answer, Some(info.citations), Some(info.sources), Some(info.numValidCitations),
                          Some(|chunks|), c.retrieverType, true));
    } else {
      r := Success(Answer(question, generated.value, None, None, None, Some(|chunks|), c.retrieverType, true));
    }
  }

  /** `answer_streaming(question, video_id, top_k)`: what the generator yields.
      It never raises: a failure becomes one last "Error: ..." piece. */
  method AnswerStreaming(c: Chain, question: string, videoId: Option<string>, topK: Option<int>)
    returns (pieces: seq<string>)
    ensures var fetched := c.retriever(question, Some(ChainTopK(c, topK)), FilterFor(videoId));
            && (fetched.Failure? ==> pieces == ["Error: " + fetched.error.message])
            && (fetched == Success([]) ==> pieces == [NotFoundAnswer])
            && (fetched.Success? && fetched.value != [] ==>
                  var prompt := c.buildPrompt(question, fetched.value, c.includeCitations);
                  var s := c.llm.stream(LlmClient.Request(c.llm, [LlmClient.Message("user", prompt)], None, None));
                  pieces == LlmClient.Present(s.deltas)
                            + (if s.failure.Some? then ["Error: " + ("Streaming generation failed: " + s.failure.value)] else []))
  {
    var fetched := c.retriever(question, Some(ChainTopK(c, topK)), FilterFor(videoId));
    if fetched.Failure? {
      return ["Error: " + fetched.error.message];
    }
    if fetched.value == [] {
      return [NotFoundAnswer];
    }
    var prompt := c.buildPrompt(question, fetched.value, c.includeCitations);
    var streamed := LlmClient.GenerateStreaming(c.llm, prompt, None, None);
    ghost var s := c.llm.stream(LlmClient.Request(c.llm, [LlmClient.Message("user", prompt)], None, None));
    pieces := [];
    var i := 0;
    while i < |streamed.pieces|
      invariant 0 <= i <= |streamed.pieces|
      invariant pieces == streamed.pieces[..i]
    {
      pieces := pieces + [streamed.pieces[i]];
      i := i + 1;
    }
    assert pieces == streamed.pieces;
    if streamed.error.Some? {
      pieces := pieces + ["Error: " + streamed.error.value.message];
    }
  }

  /** With citations, `num_sources` counts only the citations that resolve to
      a retrieved chunk, so it never exceeds the number of citations. */
  lemma NumSourcesBounded(answer: string, chunks: seq<Doc>)
    ensures |Citations.Sources(Citations.Extract(answer), Citations.ChunkMap(chunks))| <= |Citations.Extract(answer)|
  {
    Citations.SourcesAreResolved(Citations.Extract(answer), Citations.ChunkMap(chunks));
  }

  /** `ask_question(question, video_id, retriever_type="hybrid",
      include_citations=True)`: a fresh chain with `top_k` 4, temperature 0.2
      and 500 tokens. A bad `retriever_type` fails with the constructor's
      ValueError, which is not wrapped. */
  method AskQuestion(question: string, videoId: Option<string>, retrieverType: string, includeCitations: bool,
                     retrievers: RetrieverFactory, chat: LlmClient.ChatApi, stream: LlmClient.StreamApi,
                     defaultModel: string, defaultTemperature: real)
    returns (r: Result<Answer, Error>)
    ensures KindOf(retrieverType).None? ==> r.Failure? && r.error.kind == ValueError
    ensures KindOf(retrieverType).Some? && r.Failure? ==> r.error.kind == RAGException
    ensures KindOf(retrieverType).Some? ==>
              r == AnswerSpec(NewChain(retrieverType, 4, includeCitations, 0.2, 500, retrievers, chat, stream,
                                       defaultModel, defaultTemperature).value, question, videoId, None)
  {
    var chain := NewChain(retrieverType, 4, includeCitations, 0.2, 500, retrievers, chat, stream, defaultModel, defaultTemperature);
    if chain.Failure? {
      return Failure(chain.error);
    }
    r := AnswerQuestion(chain.value, question, videoId, None);
  }
}
