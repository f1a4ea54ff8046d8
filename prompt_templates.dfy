/** The prompt builders of augmentation/prompt_templates.py: the context
    block (plain, or tagged with `[Chunk N]` markers for citations), the QA,
    summary and conversational prompts, and the 4-characters-per-token
    length estimate. `str.format` substitution becomes concatenation of the
    template's literal pieces around its placeholders. */
module PromptTemplates {
  import opened Wrappers
  import opened Errors
  import opened Text
  import opened Records

  // The literal pieces of the four templates, in order around their
  // placeholders. The QA templates share their first sentence and a half.

  const TaskStem: string :=
    "You are an AI assistant helping users understand YouTube video content.\n" +
    "\n" +
    "Your task is to answer questions based ONLY on the provided context from video transcripts"

  const QaHead: string :=
    TaskStem +
    ".\n" +
    "\n" +
    "Guidelines:\n" +
    "1. Answer ONLY using information from the provided context\n" +
    "2. If the context doesn't contain enough information, say \"I don't have enough information in this video to answer that question\"\n" +
    "3. Be specific and cite which part of the video the information comes from\n" +
    "4. Keep answers concise but complete\n" +
    "5. Use the same language and terminology as the video\n" +
    "6. Do not make up or infer information not present in the context\n" +
    "\n" +
    "Context from video transcript:\n"

  const CitationHead: string :=
    TaskStem +
    ", and include citations.\n" +
    "\n" +
    "Guidelines:\n" +
    "1. Answer ONLY using information from the provided context\n" +
    "2. After each fact or claim, add a citation in brackets like [Chunk 0], [Chunk 1], etc.\n" +
    "3. If the context doesn't contain enough information, say so clearly\n" +
    "4. Be specific and accurate\n" +
    "5. Multiple chunks can support the same point - cite all relevant chunks\n" +
    "6. Keep answers concise but complete\n" +
    "\n" +
    "Context (with chunk IDs):\n"

  const QuestionLabel: string :=
    "\n" +
    "\n" +
    "User question: "

  const QaTail: string :=
    "\n" +
    "\n" +
    "Answer:"

  const CitationTail: string :=
    "\n" +
    "\n" +
    "Answer (with citations):"

  const ConversationalHead: string :=
    "You are an AI assistant helping users understand YouTube video content through conversation.\n" +
    "\n" +
    "You have access to the video transcript context and the conversation history.\n" +
    "\n" +
    "Guidelines:\n" +
    "1. Answer based ONLY on the provided video transcript context\n" +
    "2. Consider the conversation history for context\n" +
    "3. Maintain consistency with previous answers\n" +
    "4. If asked about something not in the video, say so clearly\n" +
    "5. Be conversational but accurate\n" +
    "\n" +
    "Conversation History:\n"

  const ConversationalContextLabel: string :=
    "\n" +
    "\n" +
    "Video Transcript Context:\n"

  const ConversationalQuestionLabel: string :=
    "\n" +
    "\n" +
    "Current Question: "

  const ConversationalTail: string :=
    "\n" +
    "\n" +
    "Answer:"

  const SummaryHead: string :=
    "You are an AI assistant that creates concise summaries of YouTube video content.\n" +
    "\n" +
    "Based on the provided transcript context, create a summary.\n" +
    "\n" +
    "Guidelines:\n" +
    "1. Capture the main topics and key points\n" +
    "2. Use bullet points for clarity\n" +
    "3. Keep it concise (3-5 bullet points)\n" +
    "4. Use information ONLY from the provided context\n" +
    "5. Maintain the video's tone and terminology\n" +
    "\n" +
    "Video Transcript Context:\n"

  const SummaryTail: string :=
    "\n" +
    "\n" +
    "Summary:"

  /** What an empty chunk list formats to, with or without ids. */
  const NoContext: string := "No context available."

  /** The marker `f"[Chunk {chunk_id}]"` for one chunk id. */
  function ChunkMarker(id: int): string {
    "[Chunk " + IntToString(id) + "]"
  }

  /** One entry of `context_parts`: the text (default ""), tagged with its
      `chunk_id` (default 0) when ids are wanted. */
  function Part(d: Doc, withIds: bool): string {
    if withIds then ChunkMarker(d.chunkId.GetOr(0)) + "\n" + d.text.GetOr("") else d.text.GetOr("")
  }

  function Parts(chunks: seq<Doc>, withIds: bool): (r: seq<string>)
    ensures |r| == |chunks| && forall i :: 0 <= i < |chunks| ==> r[i] == Part(chunks[i], withIds)
  {
    seq(|chunks|, i requires 0 <= i < |chunks| => Part(chunks[i], withIds))
  }

  /** The chunk texts, `chunk.get("text", "")` each. */
  function Texts(chunks: seq<Doc>): (r: seq<string>)
    ensures |r| == |chunks| && forall i :: 0 <= i < |chunks| ==> r[i] == chunks[i].text.GetOr("")
  {
    seq(|chunks|, i requires 0 <= i < |chunks| => chunks[i].text.GetOr(""))
  }

  /** The context `format_context_for_prompt` returns. */
  function Context(chunks: seq<Doc>, withIds: bool): string {
    if chunks == [] then NoContext else Join(Parts(chunks, withIds), "\n\n")
  }

  /** `format_context_for_prompt(chunks, include_chunk_ids)`: one part per
      chunk, in order, joined by blank lines. */
  method FormatContextForPrompt(chunks: seq<Doc>, includeChunkIds: bool) returns (context: string)
    ensures context == Context(chunks, includeChunkIds)
  {
    if chunks == [] {
      return NoContext;
    }
    var parts: seq<string> := [];
    var i := 0;
    while i < |chunks|
      invariant 0 <= i <= |chunks|
      invariant parts == Parts(chunks[..i], includeChunkIds)
    {
      parts := parts + [Part(chunks[i], includeChunkIds)];
      i := i + 1;
    }
    assert chunks[..i] == chunks;
    context := Join(parts, "\n\n");
  }

  /** Without ids the context is the texts joined by blank lines, and so does
      not depend on anything else in the chunks. */
  lemma PlainContextIsTexts(chunks: seq<Doc>, others: seq<Doc>)
    ensures chunks != [] ==> Context(chunks, false) == Join(Texts(chunks), "\n\n")
    ensures Texts(chunks) == Texts(others) ==> Context(chunks, false) == Context(others, false)
  {
    assert Parts(chunks, false) == Texts(chunks);
    assert Parts(others, false) == Texts(others);
    assert |chunks| == |Texts(chunks)|;
  }

  /** `build_qa_prompt(question, chunks, include_citations)`. */
  function BuildQaPrompt(question: string, chunks: seq<Doc>, includeCitations: bool): string {
    var context := Context(chunks, includeCitations);
    if includeCitations then CitationHead + context + QuestionLabel + question + CitationTail
    else QaHead + context + QuestionLabel + question + QaTail
  }

  predicate IsSuffix(x: string, s: string) {
    |x| <= |s| && s[|s| - |x|..] == x
  }

  /** The citation template is used exactly when citations are asked for. */
  lemma QaPromptChoice(question: string, chunks: seq<Doc>, includeCitations: bool)
    ensures IsPrefix(CitationHead, BuildQaPrompt(question, chunks, includeCitations)) <==> includeCitations
  {
    HeadsDiffer();
    HeadChoice(CitationHead, QaHead, |TaskStem|, Context(chunks, true), Context(chunks, false),
               QuestionLabel, question, CitationTail, QaTail, includeCitations);
  }

  /** Of two templates whose heads differ at some position, the first head
      starts the filled prompt exactly when the first template is chosen. */
  lemma HeadChoice(h1: string, h2: string, n: nat, c1: string, c2: string, lbl: string, q: string, t1: string, t2: string, first: bool)
    requires n < |h1| && n < |h2| && h1[n] != h2[n]
    ensures IsPrefix(h1, if first then h1 + c1 + lbl + q + t1 else h2 + c2 + lbl + q + t2) <==> first
  {
    if first {
      assert h1 + c1 + lbl + q + t1 == h1 + (c1 + lbl + q + t1);
    } else {
      var p := h2 + c2 + lbl + q + t2;
      assert p == h2 + (c2 + lbl + q + t2);
      assert p[n] == h2[n];
    }
  }

  /** With citations the prompt opens with the citation head and the
      id-tagged context; without, with the plain head and the plain context.
      Either way the question closes the prompt, just before the tail. */
  lemma QaPromptLayout(question: string, chunks: seq<Doc>, includeCitations: bool)
    ensures includeCitations ==>
              IsPrefix(CitationHead + Context(chunks, true), BuildQaPrompt(question, chunks, includeCitations))
              && IsSuffix(question + CitationTail, BuildQaPrompt(question, chunks, includeCitations))
    ensures !includeCitations ==>
              IsPrefix(QaHead + Context(chunks, false), BuildQaPrompt(question, chunks, includeCitations))
              && IsSuffix(question + QaTail, BuildQaPrompt(question, chunks, includeCitations))
  {
    var ctx := Context(chunks, includeCitations);
    var head := if includeCitations then CitationHead else QaHead;
    var tail := if includeCitations then CitationTail else QaTail;
    FillParts(head, ctx, QuestionLabel, question, tail);
  }

  /** A filled template gives back its pieces: head and context at the front,
      question and tail at the back. */
  lemma FillParts(head: string, ctx: string, middle: string, question: string, tail: string)
    ensures var p := head + ctx + middle + question + tail;
            IsPrefix(head + ctx, p) && IsPrefix(head, p) && IsSuffix(question + tail, p)
            && p[|head|..|head| + |ctx|] == ctx
            && p[|p| - |tail| - |question|..|p| - |tail|] == question
  {
    var p := head + ctx + middle + question + tail;
    assert p == (head + ctx) + (middle + question + tail);
    assert p == (head + ctx + middle) + (question + tail);
  }

  /** The two QA heads part ways right after their common stem. */
  lemma HeadsDiffer()
    ensures |TaskStem| < |QaHead| && |TaskStem| < |CitationHead|
    ensures QaHead[|TaskStem|] == '.' && CitationHead[|TaskStem|] == ','
  {
  }

  /** `build_summary_prompt(chunks)`: always the plain context. */
  function BuildSummaryPrompt(chunks: seq<Doc>): string {
    SummaryHead + Context(chunks, false) + SummaryTail
  }

  /** The summary prompt never carries chunk ids: chunks with the same texts
      give the same prompt whatever their ids and other keys. */
  lemma SummaryIgnoresIds(chunks: seq<Doc>, others: seq<Doc>)
    requires Texts(chunks) == Texts(others)
    ensures BuildSummaryPrompt(chunks) == BuildSummaryPrompt(others)
  {
    PlainContextIsTexts(chunks, others);
  }

  /** A chat history entry: `role` and `content`, each possibly absent. */
  datatype Turn = Turn(role: Option<string>, content: Option<string>)

  /** `f"{role.capitalize()}: {content}\n"`, role defaulting to "user". */
  function TurnLine(t: Turn): string {
    Capitalize(t.role.GetOr("user")) + ": " + t.content.GetOr("") + "\n"
  }

  /** The history's lines, one per turn. */
  function Lines(turns: seq<Turn>): (r: seq<string>)
    ensures |r| == |turns| && forall i :: 0 <= i < |turns| ==> r[i] == TurnLine(turns[i])
  {
    seq(|turns|, i requires 0 <= i < |turns| => TurnLine(turns[i]))
  }

  /** The `history_text` the loop accumulates. */
  function History(turns: seq<Turn>): string {
    Concat(Lines(turns))
  }

  /** The history of a conversation is the histories of its parts, in order. */
  lemma HistoryAppend(a: seq<Turn>, b: seq<Turn>)
    ensures History(a + b) == History(a) + History(b)
  {
    assert Lines(a + b) == Lines(a) + Lines(b);
    ConcatAppend(Lines(a), Lines(b));
  }

  /** A turn without a role is written as the user's. */
  lemma DefaultRoleIsUser(content: Option<string>)
    ensures TurnLine(Turn(None, content)) == "User: " + content.GetOr("") + "\n"
  {
    assert Capitalize("user") == "User";
  }

  /** `build_conversational_prompt(question, chunks, chat_history)`. */
  method BuildConversationalPrompt(question: string, chunks: seq<Doc>, chatHistory: seq<Turn>) returns (prompt: string)
    ensures prompt == ConversationalHead + History(chatHistory) + ConversationalContextLabel
                      + Context(chunks, false) + ConversationalQuestionLabel + question + ConversationalTail
  {
    var context := FormatContextForPrompt(chunks, false);
    var historyText := HistoryText(chatHistory);
    prompt := ConversationalHead + historyText + ConversationalContextLabel + context
              + ConversationalQuestionLabel + question + ConversationalTail;
  }

  /** The loop of `build_conversational_prompt` that writes the history. */
  method HistoryText(chatHistory: seq<Turn>) returns (historyText: string)
    ensures historyText == History(chatHistory)
  {
    historyText := "";
    var i := 0;
    while i < |chatHistory|
      invariant 0 <= i <= |chatHistory|
      invariant historyText == History(chatHistory[..i])
    {
      HistorySnoc(chatHistory, i);
      historyText := historyText + TurnLine(chatHistory[i]);
      i := i + 1;
    }
    assert chatHistory[..i] == chatHistory;
  }

  lemma HistorySnoc(turns: seq<Turn>, i: nat)
    requires i < |turns|
    ensures History(turns[..i + 1]) == History(turns[..i]) + TurnLine(turns[i])
  {
    assert Lines(turns[..i + 1])[..i] == Lines(turns[..i]);
  }

  /** `get_token_count_estimate(text)`: a quarter of the length, rounded down. */
  function TokenEstimate(text: string): (r: nat)
    ensures 4 * r <= |text| < 4 * r + 4
  {
    |text| / 4
  }

  /** The dictionary `check_prompt_length` returns. */
  datatype LengthCheck = LengthCheck(estimatedTokens: nat, maxTokens: int, exceedsLimit: bool, usagePct: real)

  /** `check_prompt_length(prompt, max_tokens)`: a limit of 0 makes the
      percentage a division by zero. */
  function CheckPromptLength(prompt: string, maxTokens: int): (r: Result<LengthCheck, Error>)
    ensures r.Success? <==> maxTokens != 0
    ensures r.Success? ==> r.value.estimatedTokens == TokenEstimate(prompt) && r.value.maxTokens == maxTokens
    ensures r.Failure? ==> r.error.kind == ZeroDivisionError
  {
    var estimated := TokenEstimate(prompt);
    if maxTokens == 0 then Failure(Error(ZeroDivisionError, "division by zero"))
    else Success(LengthCheck(estimated, maxTokens, estimated > maxTokens, (estimated as real / maxTokens as real) * 100.0))
  }

  /** In characters: the limit is exceeded exactly when the prompt has at
      least 4 * (max_tokens + 1) characters. */
  lemma ExceedsLimitInCharacters(prompt: string, maxTokens: int)
    requires maxTokens != 0
    ensures CheckPromptLength(prompt, maxTokens).value.exceedsLimit <==> |prompt| >= 4 * (maxTokens + 1)
  {
    var r := TokenEstimate(prompt);
    assert r > maxTokens <==> r >= maxTokens + 1;
  }
}
