# YouTube transcript question answering, modelled in Dafny

This project models the core of a retrieval-augmented question-answering service over YouTube transcripts, and proves properties of the model. The service works in two pipelines.

- **Indexing.** It loads a video's transcript, splits it into numbered chunks, embeds each chunk and upserts the vectors into a Pinecone index in batches.
- **Answering.** It retrieves chunks for a question, builds a prompt whose context tags every chunk with a `[Chunk N]` marker, asks an LLM, and resolves the markers in the answer back to sources. Retrieval can be dense, query-rewriting, or hybrid (dense plus BM25, with min-max normalisation and weighted fusion).

Alongside the two pipelines are:
- the input validators and API request models;
- the settings checks;
- the comparison report that picks the best retrieval configuration and writes recommendations.

Each core source file is one Dafny module.
- Pure code (validators, prompt building, citation parsing, fusion) becomes functions and lemmas.
- Loops become methods proved against those functions.
- Objects whose fields change become classes:
  - the hybrid retriever, whose BM25 corpus persists between calls;
  - the Pinecone store, which records every accepted upsert and delete;
  - the indexing chain.
- The comparison evaluator updates the shared result dictionaries in place, so it works on an `array`.

Python dictionaries become datatypes with `Option` fields. A missing key is `None`, and `.get(k, d)` is `GetOr(d)`. Exceptions are an `Error(kind, message)` value inside a `Result`. `Errors.IsA` mirrors the exception class hierarchy.

External services are function-valued parameters or fields: the dense retriever, the BM25 scores, the chat and streaming LLM, the embeddings API, the Pinecone calls, the transcript API and `urlparse`/`parse_qs`.

Python behaviour is modelled explicitly where it matters:
- slicing with negative bounds (`PyTake`);
- `str.split()`/`" ".join` whitespace collapsing and `strip`;
- `or`-defaults that treat 0, "" and [] as missing;
- the stable descending sort;
- `range()` with a zero or negative step.

Support modules:
- `Wrappers`: Option and Result;
- `Errors`: the exception hierarchy;
- `Text`: Python string helpers;
- `Records`: retrieved records, chunks and metadata;
- `Ranking`: the stable descending sort of positions;
- `HybridFusion` and `FusionProperties`: the specification functions of the hybrid retriever and the lemmas about them;
- `RetrieveProperties`: end-to-end facts about hybrid retrieval.

Four behaviours of the code are worth stating plainly, because a reader might expect otherwise:
- The final hybrid results do not keep `dense_score`/`sparse_score`. `_format_results` keeps only five fields (retrieval/base_retriever.py:117-126).
- `remove_citations` leaves a space before punctuation (generation/citation_handler.py:216-222).
- Streaming answers pass `include_citations` on to the prompt, so the streamed text keeps its `[Chunk N]` markers (chains/qa_chain.py:226-230).
- A hybrid retriever that receives no dense results keeps its previous BM25 corpus (retrieval/hybrid_retriever.py:87-89).

## Model

| member | source | states |
|---|---|---|
| Errors.PackageErrorsAreRAGExceptions | utils/exceptions.py:7-132 | every exception class of the package derives from RAGException, and the Python built-ins used (ValueError, KeyError, IndexError, NotImplementedError, ZeroDivisionError) do not |
| Text.SplitJoin | utils/validators.py:144 | splitting words joined by single spaces gives the words back |
| Text.CollapseIdempotent | utils/validators.py:144 | `" ".join(s.split())` applied twice equals applying it once |
| Text.CollapseShape | utils/validators.py:144 | the collapsed text has no leading, trailing or doubled whitespace |
| Text.StripShape | utils/validators.py:36 | a stripped string has no whitespace at either end, and it is empty exactly when the input was all whitespace |
| Validators.ValidateVideoId | utils/validators.py:13-48 | fails exactly when the input is empty or its stripped form is not 11 characters of `[A-Za-z0-9_-]`; a failure is always InvalidVideoIDError; a success returns the stripped id |
| Validators.ValidateVideoIdIdempotent | utils/validators.py:32-48 | validating an accepted id again accepts it unchanged |
| Validators.VideoIdIgnoresPadding | utils/validators.py:32-48 | a well-formed id surrounded by whitespace is accepted and returned without it |
| Validators.CandidateId | utils/validators.py:91-105 | picking the id from a parsed URL can only fail with the IndexError of `parse_qs(...)['v'][0]` |
| Validators.ExtractVideoIdFromUrl | utils/validators.py:51-118 | an empty URL fails with InvalidURLError "URL cannot be empty"; every failure is InvalidURLError or InvalidVideoIDError; any returned id is one the id validator returns unchanged |
| Validators.ExtractedIdValid | utils/validators.py:107-113 | the id the URL branch returns passes the video-id validator unchanged |
| Validators.ForeignDomainRefused | utils/validators.py:84-89 | a URL whose host is not one of the four YouTube hosts fails with InvalidURLError |
| Validators.WatchBranchFirst | utils/validators.py:94-97 | a path containing "watch" takes the `v` query parameter, whatever the host |
| Validators.ShortLinkBranch | utils/validators.py:94-101 | a youtu.be link without "watch" in its path takes the path with leading slashes removed |
| Validators.IsValidYoutubeUrlTotal | utils/validators.py:159-179 | `is_valid_youtube_url` never fails, and is true exactly when extraction succeeds |
| Validators.ValidateQuery | utils/validators.py:121-156 | succeeds exactly when the input is non-empty and its whitespace-collapsed form has a length within the bounds; the result is that collapsed form; failures are ValueError |
| Validators.ValidateQueryIdempotent | utils/validators.py:140-156 | with a positive minimum, validating an accepted query again gives the same result |
| Validators.BlankQueryTooShort | utils/validators.py:140-149 | a non-empty whitespace-only query fails as "Query too short" with the minimum in the message |
| Validators.SanitizeText | utils/validators.py:182-207 | the result is whitespace-collapsed; a positive `max_length` bounds its length; with no bound or 0 the result is the collapsed input |
| Validators.SanitizeIdempotent | utils/validators.py:197-207 | for a missing or non-negative bound, sanitizing twice equals sanitizing once |
| Validators.SanitizeNegativeBound | utils/validators.py:204-205 | a negative bound is truthy and slices from the end: "abc" with -1 gives "ab", and sanitizing again gives "a", so idempotence needs a non-negative bound |
| ApiModels.IndexRequestErrors | api/models.py:15-54 | the request is accepted exactly when the id is 11 characters of `[a-zA-Z0-9_-]`, chunk_size is absent or within 100..5000 and chunk_overlap absent or within 0..1000; each field is reported iff its own rule fails |
| ApiModels.IndexIdAgreesWithValidator | api/models.py:48-54 | the request-level id rule accepts exactly the strings the video-id validator returns unchanged |
| ApiModels.QueryRequestErrors | api/models.py:57-121 | accepted exactly when the question has 3..500 characters, the optional id is well formed, the retriever type is simple, rewriting or hybrid, top_k is absent or in 1..10 and temperature absent or in 0..1 |
| ApiModels.DefaultQueryAccepted | api/models.py:57-102 | a request with only a question and the field defaults is accepted iff the question length is within 3..500 |
| ApiModels.BatchIndexRequestErrors | api/models.py:210-221 | accepted exactly when it lists 1 to 10 ids |
| ApiModels.DeleteRequestErrors | api/models.py:224-235 | accepted exactly when the id has 11 characters, with no character-set check |
| ApiModels.DeleteLooserThanIndex | api/models.py:224-235 | every id an index request accepts is accepted for deletion, and "hello world" is accepted for deletion but refused for indexing |
| Settings.AllowedOriginsList | config/settings.py:55-57 | one entry per comma-separated part (commas + 1 entries), each with no whitespace at either end |
| Settings.OriginsRoundTrip | config/settings.py:55-57 | for a whitespace-free setting, joining the list with "," gives the setting back |
| Settings.DefaultOriginsList | config/settings.py:52-57 | the default setting yields exactly "http://localhost:3000" and "chrome-extension://*" |
| Settings.ValidateVectorStoreConfig | config/settings.py:88-101 | succeeds exactly when the store type is not "pinecone" or both the Pinecone key and environment are non-empty; failures are ValueError, and a missing key is reported first |
| Settings.DefaultsNeedPineconeKey | config/settings.py:27-29 | the defaults select Pinecone with no key, so validation fails with the missing-key message |
| BaseRetriever.ValidateQuery | retrieval/base_retriever.py:74-88 | succeeds exactly when the query has a non-whitespace character and at most 1000 characters; failures are ValueError |
| BaseRetriever.GetTopK | retrieval/base_retriever.py:90-100 | the override whenever one is given (0 included), otherwise the instance value |
| BaseRetriever.FormatOne | retrieval/base_retriever.py:117-126 | the projected record has only the five standard fields, each defaulted |
| BaseRetriever.FormatKeepsStandardKeys | retrieval/base_retriever.py:117-126 | the projection depends only on text, score, video_id, chunk_id and metadata, is idempotent, and leaves an already projected record unchanged |
| BaseRetriever.FormatResults | retrieval/base_retriever.py:102-127 | same length and order, element i being the projection of result i |
| BaseRetriever.RetrieveAndFormat | retrieval/base_retriever.py:129-164 | validation failure is returned before retrieval; a retrieval failure is passed through; otherwise the response carries the query, the retriever name, the results and `num_results == len(results)` |
| BaseRetriever.ValidationPrecedesRetrieval | retrieval/base_retriever.py:39-72 | an invalid query gives the same outcome whatever the retriever, and the abstract retriever fails with NotImplementedError |
| Hybrid.NewHybridRetriever | retrieval/hybrid_retriever.py:38-73 | construction succeeds exactly when both weights lie in [0, 1], failing otherwise with ValueError "Weights must be between 0 and 1"; a weight sum far from 1 is still accepted; a new retriever holds the given top_k, weights, dense retriever and BM25 scorer, with no BM25 index and an empty corpus |
| Hybrid.HybridRetriever.constructor | retrieval/hybrid_retriever.py:54-73 | stores top_k, the dense retriever, the weights, and starts with no BM25 index and empty corpus and metadata |
| Hybrid.HybridRetriever.InitializeBm25 | retrieval/hybrid_retriever.py:80-101 | an empty document list leaves index, corpus and metadata exactly as they were; otherwise the metadata becomes the documents and the corpus their texts (default "") |
| Hybrid.HybridRetriever.SparseSearch | retrieval/hybrid_retriever.py:103-142 | the result is the sparse search specification over the current metadata: [] when there is no corpus, otherwise the records at the top `top_k` BM25 positions whose score is positive, each rescored and tagged "sparse" |
| HybridFusion.SparseHitsSpec | retrieval/hybrid_retriever.py:125-138 | at most `top_k` positions, each with a positive score, in descending score with ties in corpus order, and every positive-scoring position left out ranks behind every kept one |
| HybridFusion.KeepPositiveMembers | retrieval/hybrid_retriever.py:133-134 | a position survives the `> 0` filter exactly when it was among the candidates and scores above 0 |
| HybridFusion.KeepPositiveOrder | retrieval/hybrid_retriever.py:133-138 | the kept positions are a subsequence of the candidates, so their order is the candidates' order |
| HybridFusion.HitsOf | retrieval/hybrid_retriever.py:133-138 | one record per kept position, copied from the metadata with the BM25 score and the "sparse" tag |
| Ranking.RankDescSorted | retrieval/hybrid_retriever.py:125-129 | sorting positions by descending score is a permutation of all positions, in descending score with ties in ascending position (Python's stable sort) |
| Ranking.RankUnique | retrieval/hybrid_retriever.py:125-129 | two orderings of the same positions that are both sorted descending with stable ties are equal |
| Hybrid.NormalizeScores | retrieval/hybrid_retriever.py:160-176 | the loop computes the normalisation specification: untouched for an empty or all-equal list, otherwise each record gains `(s - min) / (max - min)` |
| HybridFusion.NormalizedFrame | retrieval/hybrid_retriever.py:160-176 | normalisation only writes `score_normalized`, and leaves an empty or all-equal list exactly as it was |
| HybridFusion.NormalizedRange | retrieval/hybrid_retriever.py:164-174 | each normalised value is the rescaled score, lies in [0, 1], the minimum maps to 0 and the maximum to 1, and the order of scores is preserved |
| HybridFusion.RescaleRange | retrieval/hybrid_retriever.py:172-174 | rescaling by the minimum and maximum maps into [0, 1], sends min to 0 and max to 1, and is monotone |
| HybridFusion.Min | retrieval/hybrid_retriever.py:165 | the result is one of the scores and no score is below it |
| HybridFusion.Max | retrieval/hybrid_retriever.py:166 | the result is one of the scores and no score is above it |
| Hybrid.AddDenseResults | retrieval/hybrid_retriever.py:183-193 | the dictionary loop yields the dense dictionary, keyed by id (default ""), a later duplicate replacing the earlier one, with keys in first-insertion order |
| Hybrid.AddSparseResults | retrieval/hybrid_retriever.py:195-212 | the second loop adds the weighted sparse score to an existing entry or inserts a new sparse-only entry, keeping first-insertion key order |
| Hybrid.DenseDictEntries | retrieval/hybrid_retriever.py:186-193 | the dense dictionary has exactly the dense ids as keys, each holding the entry the fusion specification defines |
| Hybrid.SparseDictEntries | retrieval/hybrid_retriever.py:196-212 | after both loops the dictionary has exactly the dense and sparse ids as keys, each holding the fusion specification's entry |
| Hybrid.HybridRetriever.MergeResults | retrieval/hybrid_retriever.py:144-223 | the merge equals its specification: both lists normalised, fused by id and sorted by hybrid score |
| Hybrid.HybridRetriever.Combine | retrieval/hybrid_retriever.py:182-216 | the dictionary building and the stable descending sort compute the fusion specification |
| FusionProperties.FuseOnePerId | retrieval/hybrid_retriever.py:183-215 | the merged list has one entry per distinct id, its ids are exactly those of the dense and sparse inputs, and it is no longer than both inputs together |
| FusionProperties.FuseRanking | retrieval/hybrid_retriever.py:215-216 | the merged list is in descending hybrid score, and equal scores keep first-insertion order of their ids (dense first, then sparse-only) |
| FusionProperties.FuseKeys | retrieval/hybrid_retriever.py:215-216 | the merged list is a permutation of the deduplicated ids |
| FusionProperties.CombinedIds | retrieval/hybrid_retriever.py:183-215 | the dictionary's values, in insertion order, carry the deduplicated ids of dense then sparse, each with a hybrid score |
| FusionProperties.DedupFirstOccurrence | retrieval/hybrid_retriever.py:187-215 | dictionary keys appear in order of first occurrence |
| FusionProperties.FusedScoreBounds | retrieval/hybrid_retriever.py:189-210 | with normalised inputs, non-negative weights and distinct sparse ids, every fused score lies in [0, dense_weight + sparse_weight] |
| FusionProperties.MergedScoreBounds | retrieval/hybrid_retriever.py:159-216 | the same bound for the whole merge, whose normalisation keeps values in [0, 1] |
| FusionProperties.UnnormalizedDenseAddsNothing | retrieval/hybrid_retriever.py:189-191 | a dense side without normalised scores contributes 0, so each fused score is its sparse part alone |
| FusionProperties.UnnormalizedSparseAddsNothing | retrieval/hybrid_retriever.py:201-210 | a sparse side without normalised scores contributes 0, so each fused score is its weighted dense part alone |
| FusionProperties.EqualDenseScoresAddNothing | retrieval/hybrid_retriever.py:168-191 | when all dense scores are equal (a single result included), the dense side contributes nothing to any fused score |
| FusionProperties.IdlessRecordsCollapse | retrieval/hybrid_retriever.py:187-197 | records without an id all share the key "", so at most one merged entry comes out |
| FusionProperties.RepeatedSparseIdsExceedBound | retrieval/hybrid_retriever.py:196-203 | when sparse ids repeat the sparse side is added more than once, and the fused score can exceed the weight sum (1.15 against 1.0) |
| HybridFusion.FinalResults | retrieval/hybrid_retriever.py:276-287 | the final list is the first `k` merged entries, Python-slice style, each rescored and projected |
| RetrieveProperties.FinalResultsShape | retrieval/hybrid_retriever.py:276-287 | at most `k` entries, each in the five-field projection, with `score` set to the entry's hybrid score |
| Hybrid.HybridRetriever.Retrieve | retrieval/hybrid_retriever.py:225-292 | result and new metadata equal the retrieval specification over the old metadata: validate, dense search for 2k, rebuild BM25, sparse search for 2k, merge, take k, rescore, project |
| Hybrid.HybridRetriever.RetrieveSteps | retrieval/hybrid_retriever.py:255-287 | the five steps after validation compute the steps specification, including the in-place normalisation of the dense list that is also the BM25 metadata |
| Hybrid.HybridRetriever.SeeNormalized | retrieval/hybrid_retriever.py:93-179 | normalising the dense list also rewrites the stored metadata, because both are the same list |
| RetrieveProperties.RetrieveResultsShape | retrieval/hybrid_retriever.py:276-287 | a successful retrieval returns at most k formatted records in descending score |
| RetrieveProperties.ValidationErrors | retrieval/hybrid_retriever.py:247-248 | an invalid query fails with the validator's ValueError, outside the SearchError wrapping, and the corpus is left alone |
| RetrieveProperties.SearchErrors | retrieval/hybrid_retriever.py:289-292 | after validation every failure is a SearchError, which is a RetrievalError |
| HybridFusion.SparseSpec | retrieval/hybrid_retriever.py:114-142 | sparse results all carry a score and are no more than the corpus |
| RetrieveProperties.StaleCorpusLeak | retrieval/hybrid_retriever.py:264-269 | when the dense search finds nothing, a reused retriever still returns records from the corpus of an earlier query |
| RetrieveProperties.SparseHitsNonEmpty | retrieval/hybrid_retriever.py:125-138 | a positive score somewhere and top_k at least 1 give at least one sparse hit |
| RetrieveProperties.MergeNonEmpty | retrieval/hybrid_retriever.py:183-216 | sparse hits alone make the merge non-empty |
| Hybrid.HybridRetriever.InitializeBm25Fresh | retrieval/hybrid_retriever.py:80-99 | corrected initialisation: the metadata always becomes the given documents, an empty list included |
| Hybrid.HybridRetriever.RetrieveFresh | retrieval/hybrid_retriever.py:225-292 | with the corrected initialisation a retrieval's result depends only on this query's dense results |
| RetrieveProperties.FreshRetrieveNoCandidates | retrieval/hybrid_retriever.py:264-287 | with the corrected initialisation, an empty dense result gives an empty answer |
| Citations.MatchMarker | generation/citation_handler.py:55 | a match starts with "[Chunk", and what it captures is digits that fit inside the text |
| Citations.MatchSound | generation/citation_handler.py:55 | a match is exactly "[Chunk", at least one whitespace character, at least one digit, then "]" |
| Citations.MarkerGrammar | generation/citation_handler.py:55 | conversely, "[Chunk" followed by any whitespace run, any digit run and "]" is matched, capturing exactly those digits |
| Citations.ExtractMarker | generation/citation_handler.py:55-59 | a marker for chunk n at the front contributes n, then extraction continues after it |
| Citations.ExtractSkip | generation/citation_handler.py:55-59 | text that does not contain "[Chunk" contributes nothing, and matching resumes after it |
| Citations.ExtractPlain | generation/citation_handler.py:55-59 | text without "[" yields no citations |
| Citations.TwoMarkers | generation/citation_handler.py:55-63 | two markers separated by plain text are returned left to right, duplicates kept |
| Citations.ExtractExample | generation/citation_handler.py:48-52 | "RAG is useful [Chunk 0]. It helps [Chunk 2]." yields [0, 2] |
| Citations.ExtractCaseSensitive | generation/citation_handler.py:55 | "[chunk 3]" yields nothing: the keyword is case-sensitive |
| Citations.ExtractNeedsSpace | generation/citation_handler.py:55 | "[Chunk3]" yields nothing: whitespace before the digits is required |
| Citations.ExtractNoSign | generation/citation_handler.py:55 | "[Chunk -1]" yields nothing: no sign is allowed |
| Citations.ContextRoundTrip | generation/citation_handler.py:55-59 | extracting the citations of an id-tagged context gives back the chunk ids in order, when ids are non-negative and texts do not contain "[Chunk" |
| Citations.JoinedRoundTrip | augmentation/prompt_templates.py:143-150 | the same round trip over the "\n\n"-joined tagged parts |
| Citations.ChunkMapSpec | generation/citation_handler.py:92 | the map's keys are each chunk's `chunk_id` or its position, and a shared key resolves to the last chunk carrying it |
| Citations.SourcesAreResolved | generation/citation_handler.py:95-106 | one source per citation that resolves, in citation order with duplicates, each built from the mapped chunk; so no more sources than citations |
| Citations.AddSourceInfo | generation/citation_handler.py:65-121 | the answer is returned unchanged, the citations are its extracted ids, the sources are those that resolve, and both counts are the list lengths, valid ≤ total |
| Citations.Partition | generation/citation_handler.py:186-188 | resolved and invalid citations together are, as a multiset, exactly the citations |
| Citations.InvalidMembers | generation/citation_handler.py:188 | a value is invalid exactly when it is cited and not among the available keys |
| Citations.ValidationAgrees | generation/citation_handler.py:164-202 | total is the number of citations, valid equals the number of resolved sources, valid plus invalid is total, and all_valid holds iff every citation is an available key |
| Citations.FormatCitations | generation/citation_handler.py:123-162 | the loop builds the formatted answer of the specification |
| Citations.AppendBlocks | generation/citation_handler.py:156-160 | the appended text is the concatenation of one block per source, in order |
| Citations.FormattedShape | generation/citation_handler.py:147-162 | the answer is a prefix of the output; the output is the answer alone iff full sources are off or nothing resolves; otherwise the remainder is the "Sources" appendix |
| Citations.BlockShape | generation/citation_handler.py:157-160 | each block opens with a newline and the chunk's marker and quotes at most the first 150 characters of the source text |
| Citations.RemoveCitations | generation/citation_handler.py:204-227 | the result has no leading, trailing or doubled whitespace |
| Citations.RemoveCitationsPlain | generation/citation_handler.py:220-227 | text without "[Chunk" is only whitespace-normalised |
| Citations.RemoveBeforePunctuation | generation/citation_handler.py:221-225 | a marker between a word and punctuation leaves a space: "t [Chunk n]c" becomes "t c" normalised |
| Citations.RemoveExampleAsWritten | generation/citation_handler.py:216-222 | "RAG is useful [Chunk 0]." becomes "RAG is useful .", not the documented "RAG is useful." |
| Citations.NestedMarkerSurvives | generation/citation_handler.py:221-222 | one left-to-right pass can leave a marker behind: "[Chunk [Chunk 1]1]" becomes "[Chunk 1]", which still cites chunk 1 |
| Citations.RemoveCitationsFixed | generation/citation_handler.py:204-227 | corrected removal: the result is also whitespace-normalised |
| Citations.FixedAgreesOnPlain | generation/citation_handler.py:220-227 | on marker-free text the corrected and as-written removals agree with plain whitespace normalisation |
| Citations.FixedBeforePunctuation | generation/citation_handler.py:216-218 | the corrected removal joins the word and the punctuation, "t [Chunk n]c" becoming "t" + "c" normalised |
| Citations.RemoveExampleFixed | generation/citation_handler.py:216-218 | the corrected removal gives the documented "RAG is useful." |
| Citations.BetweenWordsAgree | generation/citation_handler.py:221-225 | between two words both removals give the two words with one space |
| PromptTemplates.FormatContextForPrompt | augmentation/prompt_templates.py:113-152 | the loop builds the context of the specification: "No context available." for no chunks, otherwise the parts (text, or "[Chunk <chunk_id>]" + newline + text with chunk_id defaulting to 0) joined by a blank line |
| PromptTemplates.PlainContextIsTexts | augmentation/prompt_templates.py:138-148 | without ids a non-empty context is the chunk texts joined by "\n\n", so it depends on the texts alone |
| PromptTemplates.QaPromptChoice | augmentation/prompt_templates.py:177-186 | the prompt opens with the citation template iff citations are requested |
| PromptTemplates.QaPromptLayout | augmentation/prompt_templates.py:155-193 | with citations the prompt is the citation head, the id-tagged context, …, the question and the citation tail; without, the plain head, plain context, …, question and plain tail |
| PromptTemplates.SummaryIgnoresIds | augmentation/prompt_templates.py:196-216 | the summary prompt depends only on the chunk texts, so context is never id-tagged |
| PromptTemplates.HistoryAppend | augmentation/prompt_templates.py:247-251 | the history of two runs of turns is the concatenation of their histories, one line per turn in order |
| PromptTemplates.DefaultRoleIsUser | augmentation/prompt_templates.py:249-251 | a turn without a role is rendered as "User: <content>" and a newline |
| PromptTemplates.HistoryText | augmentation/prompt_templates.py:247-251 | the loop builds the history of the specification, one "<Role>: <content>" line per turn |
| PromptTemplates.BuildConversationalPrompt | augmentation/prompt_templates.py:219-262 | the prompt is the template with the history, the plain context and the question filled in, once each |
| PromptTemplates.TokenEstimate | augmentation/prompt_templates.py:265-280 | the estimate is the floor of length / 4 |
| PromptTemplates.CheckPromptLength | augmentation/prompt_templates.py:283-314 | reports the estimate and the limit; a zero limit fails with ZeroDivisionError from the usage percentage |
| PromptTemplates.ExceedsLimitInCharacters | augmentation/prompt_templates.py:300-305 | the limit is exceeded, strictly, exactly when the prompt has at least 4 × (max_tokens + 1) characters |
| QueryRewriter.NewQueryRewritingRetriever | retrieval/query_rewriter.py:64-97 | the model is the given one unless it is missing or empty, in which case the settings model; top_k and temperature are kept |
| QueryRewriter.RewritePrompt | retrieval/query_rewriter.py:19-43 | the query is substituted once, verbatim, between the template's head and tail |
| QueryRewriter.RewriteQuery | retrieval/query_rewriter.py:99-147 | the LLM receives the filled rewrite prompt; the stripped LLM output on success; the original query unchanged on any failure, a missing content included |
| QueryRewriter.RewriteShape | retrieval/query_rewriter.py:135-147 | the result is the original query or a string with no whitespace at either end |
| QueryRewriter.Annotate | retrieval/query_rewriter.py:195-197 | a result gains `original_query` and `rewritten_query` and nothing else changes |
| QueryRewriter.AnnotateAll | retrieval/query_rewriter.py:195-199 | the loop annotates every result, keeping count and order |
| QueryRewriter.Retrieve | retrieval/query_rewriter.py:149-199 | an invalid query fails before any rewriting; the base retriever receives the original query when rewriting is skipped and the rewritten one otherwise, with the resolved top_k; its failure is passed through; each of its results comes back annotated, same count and order |
| QueryRewriter.CalculateImprovement | retrieval/query_rewriter.py:239-265 | only a zero difference when either list is empty; otherwise the two averages are the mean scores (a missing score counting 0) of the two lists, the difference is rewritten minus original, and the percentage is difference / original × 100 for a positive original average and 0 otherwise, with the sign of the difference |
| QueryRewriter.AverageBounds | retrieval/query_rewriter.py:258-259 | an average lies between the lowest and highest score |
| QueryRewriter.SameResultsNoImprovement | retrieval/query_rewriter.py:258-265 | the same results on both sides give zero difference and zero percentage |
| QueryRewriter.CompareQueries | retrieval/query_rewriter.py:201-237 | for a valid query, a failure of the unrewritten search and then of the rewritten one is passed through, and when both succeed so does the comparison; the original results are the base retriever's results for the unchanged query and the rewritten results those for the rewrite, each annotated with both queries, in order; the reported rewritten query is the rewrite when rewritten results exist and the input otherwise; the improvement is computed from the two lists |
| QaChain.KindOf | chains/qa_chain.py:60-70 | exactly "simple", "rewriting" and "hybrid" are recognised, each as its own kind |
| QaChain.NewChain | chains/qa_chain.py:35-82 | an unknown retriever type fails with the ValueError message naming it; otherwise the chain holds the retriever of that kind, the settings and an LLM client built with the given temperature |
| QaChain.ChainTopK | chains/qa_chain.py:111 | `top_k or self.top_k`: a given non-zero value, else the chain's |
| QaChain.ZeroTopKDiffers | chains/qa_chain.py:111 | 0 falls back to the chain's value here, whereas the base retriever keeps 0; all other values agree |
| QaChain.FilterFor | chains/qa_chain.py:116-122 | a video filter is passed exactly when the video id is non-empty, and it holds that id |
| QaChain.Wrapped | chains/qa_chain.py:183-186 | pipeline failures become RAGException, neither a generation nor a retrieval error, with the "QA pipeline failed for question" message |
| QaChain.AnswerSpec | chains/qa_chain.py:84-186 | the outcome of `answer`: every failure a plain RAGException; a success echoes the question and retriever type, has the fixed not-found answer exactly when no chunk count is reported, and with citations on reports at most as many sources as citations, `num_sources` being their count |
| QaChain.AnswerQuestion | chains/qa_chain.py:84-186 | equals AnswerSpec: retrieval failures are wrapped; no chunks gives the fixed not-found answer with no sources and no LLM call; otherwise the LLM's answer, with citations, sources and `num_sources == num_valid_citations` from the source information when citations are on, the raw answer when off; generation failures are wrapped |
| QaChain.NumSourcesBounded | chains/qa_chain.py:152-160 | the number of sources reported never exceeds the number of citations |
| QaChain.AnswerStreaming | chains/qa_chain.py:188-239 | a retrieval failure yields one "Error: …" piece; no chunks yields the fixed sentence once; otherwise the LLM's non-empty deltas in order, followed by "Error: …" if the stream fails |
| QaChain.AskQuestion | chains/qa_chain.py:242-275 | an unknown retriever type fails with ValueError before answering; for a known type the result is AnswerSpec of the fresh chain with top_k 4, temperature 0.2 and 500 tokens, and no top_k override |
| LlmClient.NewClient | generation/llm_client.py:28-55 | model and temperature fall back to the settings when missing or falsy (0.0 included); max_tokens is kept |
| LlmClient.ZeroTemperatureAtConstruction | generation/llm_client.py:43-84 | 0.0 given at construction becomes the settings value, while 0.0 given per call is used as is |
| LlmClient.Request | generation/llm_client.py:83-104 | per-call temperature and max_tokens override the client's whenever they are given |
| LlmClient.EstimatedTokens | generation/llm_client.py:89 | the estimate is the floor of length / 4 |
| LlmClient.TooLongInCharacters | generation/llm_client.py:90 | a prompt is refused exactly when it has at least 4 × 3500 + 4 characters |
| LlmClient.Completion | generation/llm_client.py:108-125 | success exactly when the API returns content, giving it stripped; every failure is LLMError with the "LLM generation failed: " prefix |
| LlmClient.Generate | generation/llm_client.py:57-125 | a too-long prompt fails with PromptTooLongError and its estimate; otherwise the result is the completion of one user message with the resolved parameters |
| LlmClient.GateBeforeCall | generation/llm_client.py:89-94 | a too-long prompt fails the same whatever the API would do, so the API is not called |
| LlmClient.GenerateShape | generation/llm_client.py:57-125 | a success has no whitespace at either end; a failure is LLMError or PromptTooLongError, both generation errors |
| LlmClient.GenerateWithSystemPrompt | generation/llm_client.py:127-178 | system then user message; success exactly when the API returns content; failures are LLMError |
| LlmClient.SystemPromptHasNoGate | generation/llm_client.py:127-178 | the system-prompt variant has no length gate: a prompt `generate` refuses can succeed here |
| LlmClient.GenerateStreaming | generation/llm_client.py:180-225 | yields exactly the non-None deltas in stream order, and a stream failure becomes LLMError "Streaming generation failed: …"; no length gate |
| LlmClient.PresentAppend | generation/llm_client.py:218-220 | filtering deltas distributes over concatenation, so order is kept |
| LlmClient.PresentAll | generation/llm_client.py:218-220 | when every delta has content, all of them are yielded unchanged |
| LlmClient.GenerateAnswer | generation/llm_client.py:228-253 | a one-shot client with the resolved model and temperature: gated the same way, otherwise the completion of the prompt |
| TextSplitter.NewSplitter | indexing/text_splitter.py:26-56 | size and overlap fall back to the settings when missing or 0; separators fall back to "\n\n", "\n", ". ", " ", "" when missing or empty |
| TextSplitter.SplitterDefaults | indexing/text_splitter.py:40-42 | defaults are 1000 and 200, given values are kept, and 0, 0 and [] behave exactly like no arguments |
| TextSplitter.ChunkOf | indexing/text_splitter.py:83-90 | chunk i carries the piece, `chunk_id == i`, `chunk_length == len(piece)` and the metadata |
| TextSplitter.MetadataOr | indexing/text_splitter.py:88 | the metadata given, or {} when none is |
| TextSplitter.SplitText | indexing/text_splitter.py:58-92 | empty text gives [] without calling the splitter; otherwise one chunk per piece, in order, numbered from 0 |
| TextSplitter.ChunkIdsArePositions | indexing/text_splitter.py:83-90 | chunk ids are the positions, hence pairwise distinct, and each chunk holds its piece |
| TextSplitter.TranscriptMetadata | indexing/text_splitter.py:106-118 | exactly video_id and language (default "unknown"), source "youtube" and `total_chars == len(text)` |
| TextSplitter.SplitTranscript | indexing/text_splitter.py:94-130 | the transcript text (default "") split with that metadata on every chunk |
| TextSplitter.SplitTranscriptIntoChunks | indexing/text_splitter.py:164-184 | a fresh splitter with the given sizes splits the transcript the same way |
| TextSplitter.Lengths | indexing/text_splitter.py:151 | reading `chunk_length` succeeds exactly when every chunk has one, else KeyError 'chunk_length' |
| TextSplitter.GetChunkStats | indexing/text_splitter.py:132-161 | no chunks gives all zeros; otherwise count, sum, average, minimum and maximum of the chunk lengths; a missing length fails |
| TextSplitter.StatsOrdered | indexing/text_splitter.py:151-159 | min ≤ average ≤ max |
| TextSplitter.SplitLengths | indexing/text_splitter.py:83-90 | stats over freshly split chunks never fail, and the lengths are the pieces' lengths |
| TextSplitter.Min | indexing/text_splitter.py:157 | one of the lengths, and none is smaller |
| TextSplitter.Max | indexing/text_splitter.py:158 | one of the lengths, and none is larger |
| Embeddings.NewGenerator | indexing/embeddings.py:27-51 | model and dimensions fall back to the settings when missing or falsy |
| Embeddings.BlankIsAllSpace | indexing/embeddings.py:72 | text is refused exactly when it is empty or all whitespace |
| Embeddings.GenerateEmbedding | indexing/embeddings.py:53-94 | blank text fails with EmbeddingGenerationError "Cannot generate embedding for empty text"; otherwise the API's vector, or its failure wrapped as EmbeddingGenerationError |
| Embeddings.EmbeddingFailuresAreIndexingErrors | indexing/embeddings.py:72-94 | every failure is an EmbeddingGenerationError, an IndexingError, and blank text fails without consulting the API |
| Embeddings.EmbeddingOrNone | indexing/embeddings.py:125-136 | None exactly when generating the embedding fails, the vector otherwise |
| Embeddings.GenerateEmbeddingsBatch | indexing/embeddings.py:96-140 | same length as the input, position i holding text i's embedding or None |
| Embeddings.BlankTextsFail | indexing/embeddings.py:125-136 | a blank text's slot is None |
| Embeddings.WithEmbedding | indexing/embeddings.py:183-186 | a copy of the chunk with `embedding` and `embedding_dim == len(embedding)`, nothing else changed |
| Embeddings.EmbedChunks | indexing/embeddings.py:142-194 | the chunks whose embedding succeeded, in input order, each with its embedding |
| Embeddings.AttachEmbeddings | indexing/embeddings.py:181-186 | the loop keeps exactly the chunks with an embedding, in order |
| Embeddings.KeptCount | indexing/embeddings.py:181-186 | the output has as many chunks as there are successful embeddings |
| Embeddings.SomePositions | indexing/embeddings.py:181-186 | the positions whose embedding is not None, strictly increasing, and every such position is among them |
| Embeddings.KeptFromInputs | indexing/embeddings.py:181-186 | output chunk j is the input chunk at the j-th successful position with its own embedding, so every successful chunk is kept once, in input order, and nothing else is |
| Embeddings.KeptAll | indexing/embeddings.py:181-186 | with no failure, output chunk i is input chunk i with its embedding |
| Embeddings.KeptHaveEmbeddings | indexing/embeddings.py:183-186 | every output chunk has an embedding and its matching dimension |
| Embeddings.GenerateEmbeddingsForChunks | indexing/embeddings.py:197-222 | exactly `embed_chunks` of a fresh generator with the given or default model and dimensions: the successfully embedded chunks in input order, each with its embedding and dimension |
| VectorStore.MetaOr | indexing/vector_store.py:96-105 | a chunk's metadata value under a key, or the default when the chunk has no metadata or no such key |
| VectorStore.VectorOf | indexing/vector_store.py:96-110 | the vector's id is "<video_id>_<chunk_id>" (defaults "unknown" and 0), its values are the embedding, and its metadata has exactly video_id, chunk_id, language, source and the text cut to 1000 characters |
| VectorStore.Prepared | indexing/vector_store.py:89-114 | chunks without an embedding are skipped, so there are at most as many vectors as chunks |
| VectorStore.PrepareVectors | indexing/vector_store.py:89-114 | the loop builds the prepared vectors |
| VectorStore.PreparedAll | indexing/vector_store.py:91-114 | when every chunk has an embedding, vector i is built from chunk i |
| VectorStore.PreparedNone | indexing/vector_store.py:92-93 | when no chunk has an embedding nothing is sent |
| VectorStore.BatchEnd | indexing/vector_store.py:120-121 | a batch starting at i ends after at most `batch_size` vectors, and only the last batch can be short |
| VectorStore.BatchesCover | indexing/vector_store.py:120-121 | the batches are consecutive slices of 1 to `batch_size` vectors that together give back the whole list, in order; all but the last are full |
| VectorStore.RunShape | indexing/vector_store.py:120-137 | the batches sent are a prefix of the batches; none fails exactly when all are sent; otherwise the next batch is the one the index refused, and nothing after it is sent |
| VectorStore.RunSentAccepted | indexing/vector_store.py:122-128 | every batch counted as sent was accepted by the index |
| VectorStore.UpsertCalls | indexing/vector_store.py:123-126 | one recorded upsert per sent batch, with the namespace, in order |
| VectorStore.Store.constructor | indexing/vector_store.py:29-55 | index name and dimension fall back to the settings when missing or falsy, and no call has been made |
| VectorStore.Store.UpsertChunks | indexing/vector_store.py:57-152 | [] returns count 0 and touches nothing; batch size 0 fails as Python's `range` does; a negative size sends nothing; otherwise the sent batches are recorded and the result is the prepared count, or the batch's VectorStoreError with earlier batches left sent |
| VectorStore.Store.SendBatches | indexing/vector_store.py:118-137 | the loop sends the batches in order, records each accepted one, stops at the first refusal and reports it |
| VectorStore.SuccessSendsAll | indexing/vector_store.py:118-145 | when no batch fails, the sent batches concatenate to exactly the prepared vectors, so `upserted_count` is their number |
| VectorStore.MatchDoc | indexing/vector_store.py:196-204 | a match becomes a record with its id, score and metadata, and text, video_id and chunk_id from the metadata with defaults "", "" and 0 |
| VectorStore.Store.Query | indexing/vector_store.py:154-213 | an empty embedding fails before the index is called; index failures become VectorStoreError; otherwise one record per match, in order |
| VectorStore.Store.DeleteByVideoId | indexing/vector_store.py:215-250 | on success the deletion is recorded and reported; a failure becomes VectorStoreError and nothing is recorded |
| VectorStore.Store.GetIndexStats | indexing/vector_store.py:252-276 | the index's statistics, or nothing (an empty result) on any failure, never an error |
| VectorStore.Store.StoreEmbeddingsInPinecone | indexing/vector_store.py:279-311 | a fresh store upserts in batches of 100 with the same outcome as `upsert_chunks` |
| DocumentLoader.NewLoader | indexing/document_loader.py:36-44 | preferred languages are the given ones, or ["en"] when none or an empty list is given, and never empty |
| DocumentLoader.DetectLanguage | indexing/document_loader.py:146-158 | the language is one of the preferred languages (the first) |
| DocumentLoader.DetectedLanguageDefault | indexing/document_loader.py:43 | with no languages or an empty list the language is "en"; otherwise the first given |
| DocumentLoader.SegmentTexts | indexing/document_loader.py:139 | reading the segment texts succeeds exactly when every segment has one, otherwise KeyError 'text' |
| DocumentLoader.Concatenate | indexing/document_loader.py:128-144 | the joined text has no leading, trailing or doubled whitespace |
| DocumentLoader.ConcatenateIdempotent | indexing/document_loader.py:139-142 | concatenating an already concatenated text changes nothing, and one segment is just whitespace-normalised |
| DocumentLoader.FetchError | indexing/document_loader.py:105-126 | disabled or not-found transcripts become TranscriptNotAvailableError; an unavailable video or any other failure becomes TranscriptFetchError |
| DocumentLoader.Loaded | indexing/document_loader.py:76-126 | a failed fetch maps to its error; a segment without text is TranscriptFetchError; otherwise the result has the id, the segments, the concatenated text, the first preferred language, `num_segments == len(segments)` and `total_chars == len(text)` |
| DocumentLoader.Load | indexing/document_loader.py:46-126 | the id is validated before any fetch and its error is returned unwrapped; otherwise the fetch of the stripped id with the preferred languages is mapped as above |
| DocumentLoader.LoadOutcomes | indexing/document_loader.py:71-126 | failures are InvalidVideoIDError (only for an invalid id) or one of the two transcript errors, which are indexing errors; the text of a success is whitespace-normalised |
| DocumentLoader.InvalidIdBeforeFetch | indexing/document_loader.py:71 | an invalid id fails with InvalidVideoIDError whatever the transcript service would do |
| DocumentLoader.ListAvailableTranscripts | indexing/document_loader.py:160-195 | the id is validated first; a listing failure becomes TranscriptFetchError; otherwise one entry per listed transcript, in order |
| DocumentLoader.LoadYoutubeTranscript | indexing/document_loader.py:198-217 | a success is in the first given language or "en", with counts matching its text and segments |
| IndexingChain.Failed | chains/indexing_chain.py:156-159 | a failed step becomes an IndexingError (a RAGException) with the "Indexing failed for video" message |
| IndexingChain.Zeros | chains/indexing_chain.py:187 | the dummy embedding has `embedding_dimensions` zeros (none for a non-positive size) |
| IndexingChain.Chain.constructor | chains/indexing_chain.py:34-66 | sizes and dimensions fall back to the settings when missing or 0, and the loader, splitter, embedder and store are built from them |
| IndexingChain.TranscriptChunks | chains/indexing_chain.py:112-115 | one chunk per splitter piece of the loaded text, none for the empty text; chunk i has id i and the text of piece i |
| IndexingChain.EmbeddedChunks | chains/indexing_chain.py:118-124 | the chunks whose embedding succeeded; never more than the chunks |
| IndexingChain.IndexVideoResult | chains/indexing_chain.py:68-159 | the pipeline's outcome: InvalidVideoIDError exactly for an invalid id, every other failure an IndexingError; a success carries the validated id, "success", the namespace and `num_stored == num_embeddings ≤ num_chunks` |
| IndexingChain.IndexVideoCalls | chains/indexing_chain.py:126-131 | the index receives only upserts into the given namespace, one per accepted batch of 100 |
| IndexingChain.IndexedCounts | chains/indexing_chain.py:114-150 | on success `num_chunks` is the number of pieces, `num_embeddings` the number of successful embeddings, and the logged batches hold exactly the embedded chunks' vectors, in order, as many as `num_stored` |
| IndexingChain.IndexSucceedsWhenServicesDo | chains/indexing_chain.py:106-150 | a valid id whose transcript loads, with every embedding and every batch accepted, indexes successfully with all three counts equal to the number of chunks |
| IndexingChain.Chain.IndexVideo | chains/indexing_chain.py:68-159 | the result is IndexVideoResult of the chain's components and the index log grows by exactly IndexVideoCalls |
| IndexingChain.Chain.StoreTranscript | chains/indexing_chain.py:112-147 | split, embed and upsert in batches of 100: the log grows by the accepted batches; with no refusal the counts are the chunks, the embedded chunks and the embedded chunks again; a refused batch gives "Batch upsert failed" |
| IndexingChain.Chain.CheckIfIndexed | chains/indexing_chain.py:161-210 | an invalid id fails unwrapped; otherwise a filtered top-1 query with a zero vector: indexed exactly when a match exists, `num_chunks` its count; a store failure gives not indexed with the error text and never fails |
| IndexingChain.Chain.DeleteVideoIndex | chains/indexing_chain.py:212-249 | an invalid id fails unwrapped; a store failure becomes IndexingError "Failed to delete index for …" with nothing recorded; success records the deletion |
| IndexingChain.IndexYoutubeVideo | chains/indexing_chain.py:252-277 | the result is IndexVideoResult of a fresh chain's loader (languages ["en"]), splitter, embedding generator (settings model and dimensions) and index, in the default namespace |
| ComparisonEvaluator.FilterEmpty | evaluation/comparison_evaluator.py:280-282 | filtering leaves nothing exactly when no element passes |
| ComparisonEvaluator.Scan | evaluation/comparison_evaluator.py:285-297 | a chosen index lies in the list and holds a scored result |
| ComparisonEvaluator.ScanIsFirstMaximum | evaluation/comparison_evaluator.py:285-297 | nothing is chosen (score stays -1) exactly when no valid weighted score exceeds -1; otherwise the choice is valid, its score is its weighted score, above -1, at least every valid score, and strictly above every valid score before it, so the earliest maximum wins |
| ComparisonEvaluator.BestOf | evaluation/comparison_evaluator.py:277-302 | a best configuration lies in the list and holds a scored result |
| ComparisonEvaluator.BestOfChoosesFirstMaximum | evaluation/comparison_evaluator.py:277-302 | {} exactly when every entry has an error; None exactly when valid entries exist but none scores above -1; otherwise the earliest valid maximum of 0.4·faithfulness + 0.4·recall + 0.2·precision |
| ComparisonEvaluator.MarkedIdempotent | evaluation/comparison_evaluator.py:299-300 | marking does not change which configuration is best, and marking twice equals marking once |
| ComparisonEvaluator.ScanIgnoresOverall | evaluation/comparison_evaluator.py:288-297 | the choice ignores any `overall_score` already present |
| ComparisonEvaluator.FindBestConfig | evaluation/comparison_evaluator.py:277-302 | the loop returns the best configuration of the specification, and the only change to the results is `overall_score` (rounded) on the chosen entry |
| ComparisonEvaluator.TopKLoop | evaluation/comparison_evaluator.py:315-327 | the loop yields the top_k notes: one per valid later result with the baseline's retriever type, a larger top_k and a recall gain above 0.1, in order; a baseline lacking `retriever_type` or `context_recall` fails with KeyError once a later result reaches that key |
| ComparisonEvaluator.TopKNotesOnceThrough | evaluation/comparison_evaluator.py:316-327 | when no later result reaches a key the baseline lacks there are no notes, and for a scored baseline the notes are exactly the gain notes |
| ComparisonEvaluator.HybridNoteIff | evaluation/comparison_evaluator.py:329-336 | for a scored baseline the hybrid note appears exactly when some valid hybrid result has a higher recall than the baseline |
| ComparisonEvaluator.MaxOf | evaluation/comparison_evaluator.py:332 | the best hybrid recall is one of the recalls and at least all of them |
| ComparisonEvaluator.RecommendedNotes | evaluation/comparison_evaluator.py:338-343 | the RECOMMENDED note appears exactly when a best configuration exists, the baseline has a name, and the two names differ |
| ComparisonEvaluator.GenerateRecommendations | evaluation/comparison_evaluator.py:305-345 | the notes of the specification (none for fewer than two results; top_k notes, hybrid note, general note, in order); the best entry is marked only when `find_best_config` is reached, and the results are otherwise unchanged |
| ComparisonEvaluator.Improvements | evaluation/comparison_evaluator.py:251-263 | one improvement per later result without an error |
| ComparisonEvaluator.CollectImprovements | evaluation/comparison_evaluator.py:254-263 | the loop yields one difference against the baseline per valid later result, in order; a baseline without scores fails with KeyError once a valid later result needs them |
| ComparisonEvaluator.CreateComparisonReport | evaluation/comparison_evaluator.py:244-274 | an empty list fails with IndexError at `results[0]`; otherwise the report holds the baseline, all results (with the best marked), the improvements, the best configuration and the recommendations; failures of the parts are passed through |

## Left out

- BM25 itself. `BM25Okapi.get_scores` is a parameter that gives one score per document. Its formula and tokenisation beyond `lower().split()` are not modelled.
- Floating point. Scores, weights and averages are mathematical reals. Python's `round(x, 3)` and the `:.3f`/`:.2f` formats are function parameters (`round`, `fmt3`, `fmt2`).
- Unicode. `\s` and `str.isspace` use Python's full whitespace set (`Text.IsSpace`). `\d` (`Text.IsDigit`) and `lower()`/`capitalize()` (`Text.Lower`, `Text.Capitalize`) are modelled on ASCII characters only. That covers the message roles in `PromptTemplates.HistoryText` and the BM25 tokenisation `HybridFusion.Tokenize`, which is `lower().split()` with the ASCII `Text.Lower`. The BM25 scoring formula itself is abstract.
- Logging, clocks and `time.sleep`. These cover every `logger` call, the `duration_seconds`/`timestamp`/`study_date` fields and the 0.1 s pause between batches. None of them affects a result.
- Hybrid.HybridRetriever.Retrieve: the warning for weights whose sum is not within 0.01 of 1 is only logged, so the model accepts such weights silently.
- Hybrid.HybridRetriever.Retrieve: `dense_score`, `sparse_score` and `search_type` are dropped, because `_format_results` removes them before returning. `chunk_id` defaults to 0 in the final projection.
- FusionProperties.FusedScoreBounds: this lemma needs distinct sparse ids. With repeated ids the bound fails, as RepeatedSparseIdsExceedBound shows. The BM25 corpus comes from dense results, which may repeat an id.
- FusionProperties.MergedScoreBounds: the same restriction. The bound on a merged score is proved only for distinct sparse ids, for the reason above.
- SimpleRetriever is not part of this model. The dense retriever is a parameter of the hybrid and rewriting retrievers and of the QA chain.
- Client initialisation failures are not modelled: the OpenAI and Pinecone constructors, the `QueryRewriteError`/`LLMError`/`VectorStoreError` raised there, and index creation.
- Every API call is a deterministic function of its arguments. Retries, rate limits and network failures appear only as the `Failure` outcome of that function.
- Pydantic itself is not modelled. Request models are checked field by field and report which fields fail. Pydantic's message texts, type coercion and the `example`/`description` metadata are left out.
- Loading settings from the environment and `.env` is not modelled. Settings are a record with the defaults as written.
- TextSplitter.SplitText: the LangChain recursive splitter is an abstract function from text to pieces. Its chunk sizes, overlaps and separators are not modelled.
- IndexingChain.Chain.constructor: the splitter's pieces function is a service parameter. The model does not tie it to the chain's chunk size and overlap.
- QueryRewriter.RewriteQuery: the LLM is a function of the filled rewrite prompt. The fixed model parameters (`max_tokens=100`, the model name and temperature) are not passed to it.
- QaChain.AnswerQuestion: the chain holds its retriever as a pure function of the query. A hybrid chain in the source keeps one `HybridRetriever` object for all its questions (chains/qa_chain.py:60-65), so its BM25 corpus carries over from one question to the next. The model does not capture that a hybrid chain's answer can depend on earlier questions. That carry-over is modelled on the retriever itself (`Hybrid.HybridRetriever`, `RetrieveProperties.StaleCorpusLeak`).
- QaChain.NewChain: the chain keeps `build_qa_prompt` as its prompt builder. The model does not capture replacing that builder at run time.
- VectorStore.MatchDoc: metadata values are rendered as strings or integers. A non-integer `chunk_id` in Pinecone metadata is not modelled.
- DocumentLoader.FetchError: the messages embed the language list rendered as Python's `repr`, but quote escaping inside language codes is not modelled.
- IndexingChain.Chain.CheckIfIndexed: `num_chunks` is the number of matches returned. It is 0 or 1 only when the index honours `top_k=1`, which the model does not assume.
- VectorStore.Store.StoreEmbeddingsInPinecone: its `video_id` argument is only logged, and is left out.
- VectorStore.Store.GetIndexStats: the `namespace` argument is unused in the source, so it is left out.
- ComparisonEvaluator: `run_rag_and_collect_data`, `evaluate_single_configuration`, `run_comparison_study`, saving and displaying reports, RAGAS, and the pandas DataFrame are out of scope. These are I/O and external evaluation. Only the dictionaries they produce are modelled, as `ConfigResult`.
- ComparisonEvaluator.ConfigResult: the `answer_relevancy`, `num_questions` and `video_id` fields are never read by the modelled functions, so they are omitted.
- Validators.SanitizeIdempotent: idempotence is proved only for a missing or non-negative `max_length`. SanitizeNegativeBound shows that a negative bound keeps cutting from the end.
- The API routes, `main.py`, logging configuration, and the test and phase scripts are out of scope. They call the modelled core or are I/O only.

## Findings

| source | as written | input that shows it | evidently intended | confidence | as-written member | corrected member |
|---|---|---|---|---|---|---|
| retrieval/hybrid_retriever.py:87-89 | `_initialize_bm25` returns early on an empty list, so a reused retriever keeps the corpus of its previous query | a retriever that has indexed earlier results, then a query whose dense search returns [] and whose terms occur in the old corpus: the old chunks come back | retrieval draws only on this query's dense candidates, so no dense results means no results | not executed | RetrieveProperties.StaleCorpusLeak | RetrieveProperties.FreshRetrieveNoCandidates |
| generation/citation_handler.py:216-222 | each marker and its surrounding whitespace are replaced by one space, so the space survives before punctuation | "RAG is useful [Chunk 0]." gives "RAG is useful ." | the documented output "RAG is useful." | not executed | Citations.RemoveExampleAsWritten | Citations.RemoveExampleFixed |
