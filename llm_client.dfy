/** `LLMClient` (generation/llm_client.py): the model name, temperature and
    response budget are fixed at construction, so a client is a value. The
    OpenAI chat API is a pair of function values: one complete call and one
    streamed call. */
module LlmClient {
  import opened Wrappers
  import opened Errors
  import opened Text

  datatype Message = Message(role: string, content: string)

  /** The arguments of `client.chat.completions.create`. */
  datatype ChatRequest = ChatRequest(model: string, messages: seq<Message>, temperature: real, maxTokens: int)

  /** `response.choices[0].message.content` (None when the API sends none), or
      the text of the exception the call raised. */
  type ChatApi = ChatRequest -> Result<Option<string>, string>

  /** A stream: the `delta.content` of each chunk received, in order, and the
      text of the exception that ended it early, if one did. */
  datatype Stream = Stream(deltas: seq<Option<string>>, failure: Option<string>)
  type StreamApi = ChatRequest -> Stream

  datatype Client = Client(model: string, temperature: real, maxTokens: int, chat: ChatApi, stream: StreamApi)

  /** `__init__`: `model or default` and `temperature or default`, so an empty
      model name and a temperature of 0.0 fall back to the settings too. */
  function NewClient(model: Option<string>, temperature: Option<real>, maxTokens: int,
                     chat: ChatApi, stream: StreamApi,
                     defaultModel: string, defaultTemperature: real): (c: Client)
    ensures c.model == if model.Some? && model.value != [] then model.value else defaultModel
    ensures c.temperature == if temperature.Some? && temperature.value != 0.0 then temperature.value else defaultTemperature
    ensures c.maxTokens == maxTokens && c.chat == chat && c.stream == stream
  {
    Client(if model.Some? && model.value != [] then model.value else defaultModel,
           if temperature.Some? && temperature.value != 0.0 then temperature.value else defaultTemperature,
           maxTokens, chat, stream)
  }

  /** A temperature of 0.0 asked for at construction is lost, while the same
      0.0 passed to a single call is kept. */
  lemma ZeroTemperatureAtConstruction(chat: ChatApi, stream: StreamApi, defaultTemperature: real, prompt: string)
    requires defaultTemperature != 0.0
    ensures NewClient(None, Some(0.0), 500, chat, stream, "m", defaultTemperature).temperature == defaultTemperature
    ensures Request(NewClient(None, None, 500, chat, stream, "m", defaultTemperature), [Message("user", prompt)],
                    Some(0.0), None).temperature == 0.0
  {
  }

  /** The request a call sends: a per-call override wins whenever it is given,
      0.0 and 0 included. */
  function Request(c: Client, messages: seq<Message>, temperature: Option<real>, maxTokens: Option<int>): (r: ChatRequest)
    ensures r.model == c.model && r.messages == messages
    ensures r.temperature == (if temperature.Some? then temperature.value else c.temperature)
    ensures r.maxTokens == (if maxTokens.Some? then maxTokens.value else c.maxTokens)
  {
    ChatRequest(c.model, messages, temperature.GetOr(c.temperature), maxTokens.GetOr(c.maxTokens))
  }

  /** The length gate of `generate`: a quarter of the characters, rounded
      down, stands for the number of tokens. */
  const MaxPromptTokens: int := 3500

  function EstimatedTokens(prompt: string): (n: nat)
    ensures 4 * n <= |prompt| < 4 * n + 4
  {
    |prompt| / 4
  }

  predicate TooLong(prompt: string) {
    EstimatedTokens(prompt) > MaxPromptTokens
  }

  /** The gate in characters: 14004 characters and more are refused. */
  lemma TooLongInCharacters(prompt: string)
    ensures TooLong(prompt) <==> |prompt| >= 4 * MaxPromptTokens + 4
  {
  }

  /** `str(e)` for the AttributeError raised by `None.strip()`. */
  const NoContentMessage: string := "'NoneType' object has no attribute 'strip'"

  /** The answer of one completion call: the stripped content, or LLMError
      carrying the failure with the given prefix. */
  function Completion(response: Result<Option<string>, string>): (r: Result<string, Error>)
    ensures r.Failure? ==> r.error.kind == LLMError && IsPrefix("LLM generation failed: ", r.error.message)
    ensures r.Success? <==> response.Success? && response.value.Some?
    ensures r.Success? ==> r.value == Strip(response.value.value)
  {
    match response
    case Success(Some(content)) => Success(Strip(content))
    case Success(None) => Failure(Error(LLMError, "LLM generation failed: " + NoContentMessage))
    case Failure(e) => Failure(Error(LLMError, "LLM generation failed: " + e))
  }

  /** The message of PromptTooLongError for an estimate of n tokens. */
  function TooLongMessage(n: nat): string {
    "Prompt too long: ~" + IntToString(n) + " tokens. Consider reducing context or chunk count."
  }

  /** `generate(prompt, temperature, max_tokens)`: the length gate first, then
      one user message. */
  function Generate(c: Client, prompt: string, temperature: Option<real>, maxTokens: Option<int>): (r: Result<string, Error>)
    ensures TooLong(prompt) ==> r.Failure? && r.error.kind == PromptTooLongError
    ensures TooLong(prompt) ==>
              r.error.message == TooLongMessage(EstimatedTokens(prompt))
    ensures !TooLong(prompt) ==> r == Completion(c.chat(Request(c, [Message("user", prompt)], temperature, maxTokens)))
  {
    if TooLong(prompt) then
      Failure(Error(PromptTooLongError, TooLongMessage(EstimatedTokens(prompt))))
    else
      Completion(c.chat(Request(c, [Message("user", prompt)], temperature, maxTokens)))
  }

  /** A prompt over the gate is refused whatever the API would answer: two
      clients that differ only in their API give the same result. */
  lemma GateBeforeCall(c: Client, chat2: ChatApi, prompt: string, temperature: Option<real>, maxTokens: Option<int>)
    requires TooLong(prompt)
    ensures Generate(c, prompt, temperature, maxTokens) == Generate(c.(chat := chat2), prompt, temperature, maxTokens)
  {
  }

  /** A successful answer has no whitespace at either end, and every failure
      is one of the two generation errors. */
  lemma GenerateShape(c: Client, prompt: string, temperature: Option<real>, maxTokens: Option<int>)
    ensures var r := Generate(c, prompt, temperature, maxTokens);
            (r.Success? ==> r.value == [] || (!IsSpace(r.value[0]) && !IsSpace(r.value[|r.value| - 1])))
            && (r.Failure? ==> (r.error.kind == LLMError || r.error.kind == PromptTooLongError) && IsA(r.error.kind, GenerationError))
  {
    var r := Generate(c, prompt, temperature, maxTokens);
    if !TooLong(prompt) {
      var resp := c.chat(Request(c, [Message("user", prompt)], temperature, maxTokens));
      assert r == Completion(resp);
      CompletionShape(resp);
    }
    if r.Failure? {
      var k := r.error.kind;
      assert k == LLMError || k == PromptTooLongError;
      assert IsA(k, GenerationError) by {
        if k == LLMError {
          assert Parent(LLMError) == Some(GenerationError);
        } else {
          assert Parent(PromptTooLongError) == Some(GenerationError);
        }
      }
    }
  }

  lemma CompletionShape(response: Result<Option<string>, string>)
    ensures var r := Completion(response);
            r.Success? ==> r.value == [] || (!IsSpace(r.value[0]) && !IsSpace(r.value[|r.value| - 1]))
  {
    if response.Success? && response.value.Some? {
      StripShape(response.value.value);
    }
  }

  /** `generate_with_system_prompt`: a system message then the user message,
      and no length gate. */
  function GenerateWithSystemPrompt(c: Client, userMessage: string, systemPrompt: string,
                                    temperature: Option<real>, maxTokens: Option<int>): (r: Result<string, Error>)
    ensures r.Failure? ==> r.error.kind == LLMError
    ensures var resp := c.chat(Request(c, [Message("system", systemPrompt), Message("user", userMessage)], temperature, maxTokens));
            r.Success? <==> resp.Success? && resp.value.Some?
  {
    Completion(c.chat(Request(c, [Message("system", systemPrompt), Message("user", userMessage)], temperature, maxTokens)))
  }

  /** Only `generate` has the gate: the same long text sent as the user
      message of `generate_with_system_prompt` reaches the API. */
  lemma SystemPromptHasNoGate(c: Client, prompt: string, systemPrompt: string, content: string)
    requires TooLong(prompt)
    requires c.chat(Request(c, [Message("system", systemPrompt), Message("user", prompt)], None, None)) == Success(Some(content))
    ensures GenerateWithSystemPrompt(c, prompt, systemPrompt, None, None) == Success(Strip(content))
    ensures Generate(c, prompt, None, None).Failure?
  {
  }

  /** The present deltas of a stream, in order. */
  function Present(deltas: seq<Option<string>>): (r: seq<string>)
    ensures |r| <= |deltas|
  {
    if deltas == [] then [] else
    Present(deltas[..|deltas| - 1]) + (if deltas[|deltas| - 1].Some? then [deltas[|deltas| - 1].value] else [])
  }

  /** What a consumer of `generate_streaming` sees: the pieces yielded, then
      the LLMError raised, if any. */
  datatype Streamed = Streamed(pieces: seq<string>, error: Option<Error>)

  /** `generate_streaming`: forwards every non-None delta in stream order; a
      failure, at the call or midway, ends the stream with LLMError. There is
      no length gate. */
  method GenerateStreaming(c: Client, prompt: string, temperature: Option<real>, maxTokens: Option<int>)
    returns (out: Streamed)
    ensures var s := c.stream(Request(c, [Message("user", prompt)], temperature, maxTokens));
            out.pieces == Present(s.deltas)
            && (s.failure.None? ==> out.error.None?)
            && (s.failure.Some? ==> out.error == Some(Error(LLMError, "Streaming generation failed: " + s.failure.value)))
  {
    var s := c.stream(Request(c, [Message("user", prompt)], temperature, maxTokens));
    var pieces: seq<string> := [];
    var i := 0;
    while i < |s.deltas|
      invariant 0 <= i <= |s.deltas|
      invariant pieces == Present(s.deltas[..i])
    {
      if s.deltas[i].Some? {
        pieces := pieces + [s.deltas[i].value];
      }
      assert s.deltas[..i + 1][..i] == s.deltas[..i];
      i := i + 1;
    }
    assert s.deltas[..i] == s.deltas;
    if s.failure.Some? {
      return Streamed(pieces, Some(Error(LLMError, "Streaming generation failed: " + s.failure.value)));
    }
    return Streamed(pieces, None);
  }

  /** The yielded pieces are exactly the present deltas: a piece is yielded
      for a delta iff it is not None, and concatenating streams concatenates
      the pieces. */
  lemma {:induction false} PresentAppend(a: seq<Option<string>>, b: seq<Option<string>>)
    ensures Present(a + b) == Present(a) + Present(b)
    decreases |b|
  {
    if b == [] {
      assert a + b == a;
    } else {
      var b' := b[..|b| - 1];
      assert (a + b)[..|a + b| - 1] == a + b';
      PresentAppend(a, b');
    }
  }

  /** A stream with no None delta is forwarded piece for piece. */
  lemma {:induction false} PresentAll(deltas: seq<Option<string>>)
    requires forall i :: 0 <= i < |deltas| ==> deltas[i].Some?
    ensures |Present(deltas)| == |deltas|
    ensures forall i :: 0 <= i < |deltas| ==> Present(deltas)[i] == deltas[i].value
    decreases |deltas|
  {
    if deltas != [] {
      PresentAll(deltas[..|deltas| - 1]);
    }
  }

  /** `generate_answer(prompt, model, temperature=0.2, max_tokens=500)`: a
      fresh client, then `generate`. */
  function GenerateAnswer(prompt: string, model: Option<string>, temperature: real, maxTokens: int,
                          chat: ChatApi, stream: StreamApi, defaultModel: string, defaultTemperature: real): (r: Result<string, Error>)
    ensures TooLong(prompt) ==> r.Failure? && r.error.kind == PromptTooLongError
    ensures var m := if model.Some? && model.value != [] then model.value else defaultModel;
            var t := if temperature != 0.0 then temperature else defaultTemperature;
            !TooLong(prompt) ==> r == Completion(chat(ChatRequest(m, [Message("user", prompt)], t, maxTokens)))
  {
    Generate(NewClient(model, Some(temperature), maxTokens, chat, stream, defaultModel, defaultTemperature), prompt, None, None)
  }
}
