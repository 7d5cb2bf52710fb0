/**
 * The OpenVINO LLM server-sent-events adapter: it turns a chat request into the
 * chat history handed to the model, and turns the model's streamed output, its
 * errors and its stop requests into the queue of messages the SSE generator
 * drains. The LLM interface itself (model loading and chat completion) is an
 * external object; a run is modelled by what it does to the adapter: the
 * load-model events it reports, whether loading throws, the outputs it streams,
 * when a stop is requested and whether completion throws.
 */
module OpenVinoAdapter {
  import opened Wrappers

  // ---------------------------------------------------------------------------
  // Chat history (convert_prompt).

  datatype Role = System | User | Assistant

  /** A chat-history entry `{"role": ..., "content": ...}`; a missing dict key gives None. */
  datatype ChatEntry = ChatEntry(role: Role, content: Option<string>)

  /** One turn of the request's prompt: `prompt[i].get("question")`, `prompt[i].get("answer")`. */
  datatype PromptTurn = PromptTurn(question: Option<string>, answer: Option<string>)

  const DefaultPromptText: string :=
    "You are a helpful digital assistant. Please provide safe, ethical and accurate information to the user. "
    + "Please keep the output text language the same as the user input."

  /** _default_prompt, the system entry every history starts with. */
  const DefaultPrompt: ChatEntry := ChatEntry(System, Some(DefaultPromptText))

  /** Length of the history built from n turns: the system entry, n questions, n - 1 answers. */
  function HistoryLength(n: nat): nat {
    if n == 0 then 1 else 2 * n
  }

  /** The role at position j (j >= 1) of a history: questions at odd positions, answers at even ones. */
  function RoleAt(j: nat): Role {
    if j % 2 == 1 then User else Assistant
  }

  /**
   * convert_prompt: the system entry, then for each turn its question and, for
   * every turn but the last, its answer. The last turn's answer is dropped.
   */
  method ConvertPrompt(prompt: seq<PromptTurn>) returns (history: seq<ChatEntry>)
    ensures |history| == HistoryLength(|prompt|)
    ensures history[0] == DefaultPrompt
    ensures forall i :: 0 <= i < |prompt| ==> history[2 * i + 1] == ChatEntry(User, prompt[i].question)
    ensures forall i :: 0 <= i < |prompt| - 1 ==> history[2 * i + 2] == ChatEntry(Assistant, prompt[i].answer)
    ensures forall j :: 1 <= j < |history| ==> history[j].role == RoleAt(j)
    ensures |prompt| > 0 ==> history[|history| - 1] == ChatEntry(User, prompt[|prompt| - 1].question)
  {
    history := [DefaultPrompt];
    var i := 0;
    while i < |prompt|
      invariant 0 <= i <= |prompt|
      invariant |history| == if i == |prompt| then HistoryLength(i) else 2 * i + 1
      invariant history[0] == DefaultPrompt
      invariant forall k :: 0 <= k < i ==> history[2 * k + 1] == ChatEntry(User, prompt[k].question)
      invariant forall k :: 0 <= k < i && k < |prompt| - 1 ==> history[2 * k + 2] == ChatEntry(Assistant, prompt[k].answer)
      invariant forall j :: 1 <= j < |history| ==> history[j].role == RoleAt(j)
    {
      history := history + [ChatEntry(User, prompt[i].question)];
      if i < |prompt| - 1 {
        history := history + [ChatEntry(Assistant, prompt[i].answer)];
      }
      i := i + 1;
    }
  }

  // ---------------------------------------------------------------------------
  // Exceptions and their classification (error_callback).

  /**
   * The exception classes error_callback distinguishes. NotImplementedError is a
   * subclass of RuntimeError, so it passes the RuntimeError test too.
   */
  datatype ExceptionClass =
    | NotImplementedErrorClass
    | OtherRuntimeErrorClass   // RuntimeError or a subclass other than NotImplementedError
    | OtherExceptionClass      // any exception that is not a RuntimeError

  /** An exception: its class and `str(ex)`. */
  datatype PyException = PyException(cls: ExceptionClass, text: string)

  /** isinstance(ex, RuntimeError). */
  predicate IsRuntimeError(ex: PyException) {
    ex.cls == NotImplementedErrorClass || ex.cls == OtherRuntimeErrorClass
  }

  const RepositoriesNotImplemented: string := "Access to repositories lists is not implemented."

  /** The `err_type` of the error message. */
  datatype ErrorType = RepositoriesNotFound | RuntimeErrorType | UnknownException

  function ErrTypeName(t: ErrorType): string {
    match t
    case RepositoriesNotFound => "repositories_not_found"
    case RuntimeErrorType => "runtime_error"
    case UnknownException => "unknown_exception"
  }

  /** The classification of error_callback's if/elif/else. */
  function Classify(ex: PyException): (t: ErrorType)
    ensures t == RepositoriesNotFound <==> ex.cls == NotImplementedErrorClass && ex.text == RepositoriesNotImplemented
    ensures t == RuntimeErrorType <==>
      IsRuntimeError(ex) && !(ex.cls == NotImplementedErrorClass && ex.text == RepositoriesNotImplemented)
    ensures t == UnknownException <==> !IsRuntimeError(ex)
  {
    if ex.cls == NotImplementedErrorClass && ex.text == RepositoriesNotImplemented then RepositoriesNotFound
    else if IsRuntimeError(ex) then RuntimeErrorType
    else UnknownException
  }

  // ---------------------------------------------------------------------------
  // The message queue.

  /** What put_msg enqueues: a typed dict, or a bare string. */
  datatype SseMessage =
    | LoadModel(event: string)              // {"type": "load_model", "event": ...}
    | TextOut(value: string, dtype: int)    // {"type": "text_out", "value": ..., "dtype": ...}
    | Error(errType: ErrorType)             // {"type": "error", "err_type": ...}
    | Metrics(numTokens: nat)               // {"type": "metrics", "num_tokens": ..., timing fields}
    | Finish                                // {"type": "finish"}
    | Text(s: string)                       // a bare string

  const ExceptionPrefix: string := "exception:"
  const StoppingGeneration: string := "Stopping generation."

  /**
   * The two messages error_callback enqueues: the classified error, then the exception
   * text behind the "exception:" marker, from which it can be read back.
   */
  function ErrorMessages(ex: PyException): (m: seq<SseMessage>)
    ensures |m| == 2 && m[0] == Error(Classify(ex)) && m[1].Text?
    ensures ExceptionPrefix <= m[1].s && m[1].s[|ExceptionPrefix|..] == ex.text
  {
    [Error(Classify(ex)), Text(ExceptionPrefix + ex.text)]
  }

  /** The text_out messages of streamed outputs, with text_out_callback's default dtype 1. */
  function TextOuts(outputs: seq<string>): (m: seq<SseMessage>)
    ensures |m| == |outputs|
    ensures forall j :: 0 <= j < |outputs| ==> m[j] == TextOut(outputs[j], 1)
  {
    seq(|outputs|, j requires 0 <= j < |outputs| => TextOut(outputs[j], 1))
  }

  /** The load_model messages of the events the interface reports while loading. */
  function LoadMessages(events: seq<string>): (m: seq<SseMessage>)
    ensures |m| == |events|
    ensures forall j :: 0 <= j < |events| ==> m[j] == LoadModel(events[j])
  {
    seq(|events|, j requires 0 <= j < |events| => LoadModel(events[j]))
  }

  /** The number of text_out messages in a queue segment. */
  function CountTextOuts(m: seq<SseMessage>): nat {
    if m == [] then 0
    else CountTextOuts(m[..|m| - 1]) + (if m[|m| - 1].TextOut? then 1 else 0)
  }

  lemma {:induction false} CountTextOutsAppend(a: seq<SseMessage>, b: seq<SseMessage>)
    ensures CountTextOuts(a + b) == CountTextOuts(a) + CountTextOuts(b)
    decreases |b|
  {
    if b == [] {
      assert a + b == a;
    } else {
      var init := b[..|b| - 1];
      assert (a + b)[..|a + b| - 1] == a + init;
      assert (a + b)[|a + b| - 1] == b[|b| - 1];
      CountTextOutsAppend(a, init);
    }
  }

  lemma {:induction false} CountTextOutsOfTextOuts(outputs: seq<string>)
    ensures CountTextOuts(TextOuts(outputs)) == |outputs|
  {
    if outputs != [] {
      var init := outputs[..|outputs| - 1];
      assert TextOuts(outputs)[..|outputs| - 1] == TextOuts(init);
      CountTextOutsOfTextOuts(init);
    }
  }

  lemma {:induction false} CountTextOutsOfLoadMessages(events: seq<string>)
    ensures CountTextOuts(LoadMessages(events)) == 0
  {
    if events != [] {
      var init := events[..|events| - 1];
      assert LoadMessages(events)[..|events| - 1] == LoadMessages(init);
      CountTextOutsOfLoadMessages(init);
    }
  }

  // ---------------------------------------------------------------------------
  // A conversation run (text_conversation_run), as a specification.

  /**
   * What the LLM interface does during one run: the load_model events it
   * reports, the exception load_model throws (if any), the outputs
   * create_chat_completion streams through stream_function, the output index
   * before which a stop is requested (stop_generate set by the stop endpoint),
   * and the exception create_chat_completion throws after streaming (if any).
   */
  datatype Conversation = Conversation(
    loadEvents: seq<string>,
    loadError: Option<PyException>,
    prompt: seq<PromptTurn>,
    outputs: seq<string>,
    stopAt: Option<nat>,
    completionError: Option<PyException>)

  /** The first output at which stream_function sees stop_generate set. */
  function FirstStop(initialStop: bool, stopAt: Option<nat>): Option<nat> {
    if initialStop then Some(0) else stopAt
  }

  /** Whether streaming ends because stream_function returned True. */
  predicate Stopped(outputs: seq<string>, firstStop: Option<nat>) {
    firstStop.Some? && firstStop.value < |outputs|
  }

  /** The number of outputs streamed: up to and including the one at which the stop is seen. */
  function StreamedCount(outputs: seq<string>, firstStop: Option<nat>): (n: nat)
    ensures n <= |outputs|
    ensures Stopped(outputs, firstStop) ==> n == firstStop.value + 1
    ensures !Stopped(outputs, firstStop) ==> n == |outputs|
  {
    if Stopped(outputs, firstStop) then firstStop.value + 1 else |outputs|
  }

  /** The messages stream_function enqueues over the whole completion. */
  function StreamMessages(outputs: seq<string>, firstStop: Option<nat>): seq<SseMessage> {
    TextOuts(outputs[..StreamedCount(outputs, firstStop)])
    + (if Stopped(outputs, firstStop) then [Text(StoppingGeneration)] else [])
  }

  /** Whether the run reaches the end of its try block. */
  predicate Succeeds(c: Conversation) {
    c.loadError.None? && c.completionError.None?
  }

  /** The messages one run enqueues, given stop_generate's value when the run starts. */
  function RunMessages(initialStop: bool, c: Conversation): seq<SseMessage> {
    LoadMessages(c.loadEvents)
    + if c.loadError.Some? then ErrorMessages(c.loadError.value) else GenerationMessages(initialStop, c)
  }

  /** The messages after a successful load: the stream, then metrics and finish or the error. */
  function GenerationMessages(initialStop: bool, c: Conversation): seq<SseMessage> {
    var firstStop := FirstStop(initialStop, c.stopAt);
    StreamMessages(c.outputs, firstStop)
    + if c.completionError.Some? then ErrorMessages(c.completionError.value)
      else [Metrics(StreamedCount(c.outputs, firstStop)), Finish]
  }

  /** A run ends with finish exactly when it succeeds; otherwise it ends with the exception text. */
  lemma RunEndsWithFinishIff(initialStop: bool, c: Conversation)
    ensures var m := RunMessages(initialStop, c);
      |m| >= 2 && (m[|m| - 1] == Finish <==> Succeeds(c))
  {
    var m := RunMessages(initialStop, c);
    if !Succeeds(c) {
      var ex := if c.loadError.Some? then c.loadError.value else c.completionError.value;
      assert m[|m| - 2..] == ErrorMessages(ex);
    }
  }

  /** On success, metrics comes just before finish, and finish appears nowhere else. */
  lemma RunMetricsBeforeFinish(initialStop: bool, c: Conversation)
    requires Succeeds(c)
    ensures var m := RunMessages(initialStop, c);
      && |m| >= 2
      && m[|m| - 2] == Metrics(StreamedCount(c.outputs, FirstStop(initialStop, c.stopAt)))
      && m[|m| - 1] == Finish
      && Finish !in m[..|m| - 1]
  {
    var m := RunMessages(initialStop, c);
    var firstStop := FirstStop(initialStop, c.stopAt);
    var head := LoadMessages(c.loadEvents) + StreamMessages(c.outputs, firstStop);
    assert m == head + [Metrics(StreamedCount(c.outputs, firstStop)), Finish];
    assert m[..|m| - 1] == head + [Metrics(StreamedCount(c.outputs, firstStop))];
    assert forall x :: x in head ==> !x.Finish?;
  }

  /** On failure, the run ends with error_callback's two messages for the first exception. */
  lemma RunFailureEndsWithError(initialStop: bool, c: Conversation)
    requires !Succeeds(c)
    ensures var m := RunMessages(initialStop, c);
      var ex := if c.loadError.Some? then c.loadError.value else c.completionError.value;
      |m| >= 2 && m[|m| - 2..] == ErrorMessages(ex) && Metrics(StreamedCount(c.outputs, FirstStop(initialStop, c.stopAt))) !in m
  {
    var m := RunMessages(initialStop, c);
    var ex := if c.loadError.Some? then c.loadError.value else c.completionError.value;
    if c.loadError.Some? {
      assert m == LoadMessages(c.loadEvents) + ErrorMessages(ex);
    } else {
      assert m == LoadMessages(c.loadEvents) + StreamMessages(c.outputs, FirstStop(initialStop, c.stopAt)) + ErrorMessages(ex);
    }
    assert forall x :: x in m ==> !x.Metrics?;
  }

  /** The num_tokens reported in metrics is the number of text_out messages the run enqueued. */
  lemma {:induction false} RunMetricsCountsTextOuts(initialStop: bool, c: Conversation)
    requires Succeeds(c)
    ensures CountTextOuts(RunMessages(initialStop, c)) == StreamedCount(c.outputs, FirstStop(initialStop, c.stopAt))
  {
    var firstStop := FirstStop(initialStop, c.stopAt);
    var n := StreamedCount(c.outputs, firstStop);
    var stop: seq<SseMessage> := if Stopped(c.outputs, firstStop) then [Text(StoppingGeneration)] else [];
    var tail := [Metrics(n), Finish];
    assert RunMessages(initialStop, c) == LoadMessages(c.loadEvents) + (TextOuts(c.outputs[..n]) + (stop + tail));
    CountTextOutsAppend(LoadMessages(c.loadEvents), TextOuts(c.outputs[..n]) + (stop + tail));
    CountTextOutsAppend(TextOuts(c.outputs[..n]), stop + tail);
    CountTextOutsAppend(stop, tail);
    CountTextOutsOfLoadMessages(c.loadEvents);
    CountTextOutsOfTextOuts(c.outputs[..n]);
    assert CountTextOuts(stop) == 0 by {
      if stop != [] {
        assert stop[..0] == [];
      }
    }
    assert CountTextOuts(tail) == 0 by {
      assert tail[..1] == [Metrics(n)];
      assert tail[..1][..0] == [];
    }
  }

  /** A stop is acknowledged right after the output at which it was seen, and nothing more is streamed. */
  lemma RunStopFollowsLastOutput(initialStop: bool, c: Conversation)
    requires c.loadError.None?
    requires Stopped(c.outputs, FirstStop(initialStop, c.stopAt))
    ensures var m := RunMessages(initialStop, c);
      var k := FirstStop(initialStop, c.stopAt).value;
      var base := |c.loadEvents|;
      && |m| > base + k + 1
      && m[base + k] == TextOut(c.outputs[k], 1)
      && m[base + k + 1] == Text(StoppingGeneration)
      && forall j :: base + k + 1 < j < |m| ==> !m[j].TextOut?
  {
    var firstStop := FirstStop(initialStop, c.stopAt);
    var k := firstStop.value;
    var rest := if c.completionError.Some? then ErrorMessages(c.completionError.value)
                else [Metrics(StreamedCount(c.outputs, firstStop)), Finish];
    var m := RunMessages(initialStop, c);
    var pre := LoadMessages(c.loadEvents) + TextOuts(c.outputs[..k + 1]);
    var post := [Text(StoppingGeneration)] + rest;
    assert m == pre + post;
    assert |pre| == |c.loadEvents| + k + 1;
    assert m[|c.loadEvents| + k] == TextOuts(c.outputs[..k + 1])[k];
    assert forall j :: |pre| <= j < |m| ==> m[j] == post[j - |pre|];
    assert forall x :: x in post ==> !x.TextOut?;
  }

  // ---------------------------------------------------------------------------
  // The adapter object.

  /** The part of LLMInterface the adapter reads and writes. */
  class LlmInterface {
    var stopGenerate: bool

    constructor ()
      ensures !stopGenerate
    {
      stopGenerate := false;
    }
  }

  /** LLM_SSE_Adapter: its queue and the counters stream_function keeps. */
  class SseAdapter {
    const llm: LlmInterface
    var msgQueue: seq<SseMessage>
    var finish: bool
    var shouldStop: bool
    var numTokens: nat
    var isFirstToken: bool

    constructor (llm: LlmInterface)
      ensures this.llm == llm
      ensures msgQueue == [] && !finish && !shouldStop && numTokens == 0 && isFirstToken
    {
      this.llm := llm;
      msgQueue := [];
      finish := false;
      shouldStop := false;
      numTokens := 0;
      isFirstToken := true;
    }

    /** put_msg: append to the queue (the wake-up signal is not modelled). */
    method PutMsg(data: SseMessage)
      modifies this`msgQueue
      ensures msgQueue == old(msgQueue) + [data]
    {
      msgQueue := msgQueue + [data];
    }

    method LoadModelCallback(event: string)
      modifies this`msgQueue
      ensures msgQueue == old(msgQueue) + [LoadModel(event)]
    {
      PutMsg(LoadModel(event));
    }

    method TextOutCallback(msg: string, dtype: int)
      modifies this`msgQueue
      ensures msgQueue == old(msgQueue) + [TextOut(msg, dtype)]
    {
      PutMsg(TextOut(msg, dtype));
    }

    /** error_callback: the classified error, then the exception text. */
    method ErrorCallback(ex: PyException)
      modifies this`msgQueue
      ensures msgQueue == old(msgQueue) + ErrorMessages(ex)
    {
      var errType;
      if ex.cls == NotImplementedErrorClass && ex.text == RepositoriesNotImplemented {
        errType := RepositoriesNotFound;
      } else if IsRuntimeError(ex) {
        errType := RuntimeErrorType;
      } else {
        errType := UnknownException;
      }
      PutMsg(Error(errType));
      PutMsg(Text(ExceptionPrefix + ex.text));
    }

    /** stream_function: one text_out per output; returns True, after saying so, when a stop is requested. */
    method StreamFunction(output: string) returns (stop: bool)
      modifies this`msgQueue, this`numTokens, this`isFirstToken
      ensures stop == llm.stopGenerate
      ensures msgQueue == old(msgQueue) + [TextOut(output, 1)] + (if stop then [Text(StoppingGeneration)] else [])
      ensures numTokens == old(numTokens) + 1
      ensures !isFirstToken
    {
      if isFirstToken {
        isFirstToken := false;
      }
      TextOutCallback(output, 1);
      numTokens := numTokens + 1;
      if llm.stopGenerate {
        PutMsg(Text(StoppingGeneration));
        return true;
      }
      return false;
    }

    /**
     * create_chat_completion driving stream_function: each output in turn until
     * stream_function returns True. A stop requested before output stopAt sets
     * stop_generate just before that output is streamed.
     */
    method Complete(outputs: seq<string>, stopAt: Option<nat>)
      requires numTokens == 0 && isFirstToken
      modifies this`msgQueue, this`numTokens, this`isFirstToken, llm`stopGenerate
      ensures var firstStop := FirstStop(old(llm.stopGenerate), stopAt);
        && msgQueue == old(msgQueue) + StreamMessages(outputs, firstStop)
        && numTokens == StreamedCount(outputs, firstStop)
        && isFirstToken == (numTokens == 0)
    {
      var firstStop := FirstStop(llm.stopGenerate, stopAt);
      var initialStop := llm.stopGenerate;
      var i := 0;
      var stopped := false;
      while i < |outputs| && !stopped
        invariant 0 <= i <= |outputs|
        invariant numTokens == i && isFirstToken == (i == 0)
        invariant !stopped ==> llm.stopGenerate == (i == 0 && initialStop)
        invariant !stopped ==> firstStop.None? || firstStop.value >= i
        invariant stopped ==> i >= 1 && firstStop == Some(i - 1)
        invariant msgQueue == old(msgQueue) + TextOuts(outputs[..i]) + (if stopped then [Text(StoppingGeneration)] else [])
      {
        if stopAt == Some(i) {
          llm.stopGenerate := true;
        }
        assert outputs[..i + 1] == outputs[..i] + [outputs[i]];
        stopped := StreamFunction(outputs[i]);
        i := i + 1;
      }
      assert i == StreamedCount(outputs, firstStop);
    }

    /** load_model reporting its events through load_model_callback. */
    method LoadWithCallbacks(events: seq<string>)
      modifies this`msgQueue
      ensures msgQueue == old(msgQueue) + LoadMessages(events)
    {
      var i := 0;
      while i < |events|
        invariant 0 <= i <= |events|
        invariant msgQueue == old(msgQueue) + LoadMessages(events[..i])
      {
        assert LoadMessages(events[..i + 1]) == LoadMessages(events[..i]) + [LoadModel(events[i])];
        LoadModelCallback(events[i]);
        i := i + 1;
      }
      assert events[..i] == events;
    }

    /** The try block after load_model: reset the counters, stream, then report metrics or the error. */
    method Generate(c: Conversation) returns (history: seq<ChatEntry>)
      modifies this`msgQueue, this`numTokens, this`isFirstToken, llm`stopGenerate
      ensures msgQueue == old(msgQueue) + GenerationMessages(old(llm.stopGenerate), c)
      ensures numTokens == StreamedCount(c.outputs, FirstStop(old(llm.stopGenerate), c.stopAt))
      ensures |history| == HistoryLength(|c.prompt|) && history[0] == DefaultPrompt
    {
      var firstStop := FirstStop(llm.stopGenerate, c.stopAt);
      numTokens := 0;
      isFirstToken := true;
      history := ConvertPrompt(c.prompt);
      Complete(c.outputs, c.stopAt);
      ghost var streamed := msgQueue;
      if c.completionError.Some? {
        ErrorCallback(c.completionError.value);
        assert msgQueue == streamed + ErrorMessages(c.completionError.value);
      } else {
        PutMsg(Metrics(numTokens));
        PutMsg(Finish);
        assert msgQueue == streamed + [Metrics(StreamedCount(c.outputs, firstStop)), Finish];
      }
    }

    /**
     * text_conversation_run: load the model, reset the counters, stream the
     * completion of the converted prompt, then enqueue metrics and finish; any
     * exception goes through error_callback instead. Either way stop_generate is
     * cleared and finish is set.
     */
    method TextConversationRun(c: Conversation) returns (history: seq<ChatEntry>)
      modifies this`msgQueue, this`numTokens, this`isFirstToken, this`finish, llm`stopGenerate
      ensures msgQueue == old(msgQueue) + RunMessages(old(llm.stopGenerate), c)
      ensures numTokens == if c.loadError.Some? then old(numTokens)
                           else StreamedCount(c.outputs, FirstStop(old(llm.stopGenerate), c.stopAt))
      ensures c.loadError.None? ==> |history| == HistoryLength(|c.prompt|) && history[0] == DefaultPrompt
      ensures !llm.stopGenerate && finish
    {
      history := [];
      LoadWithCallbacks(c.loadEvents);
      ghost var loaded := msgQueue;
      ghost var tail: seq<SseMessage>;
      if c.loadError.Some? {
        ErrorCallback(c.loadError.value);
        tail := ErrorMessages(c.loadError.value);
      } else {
        history := Generate(c);
        tail := GenerationMessages(old(llm.stopGenerate), c);
      }
      assert RunMessages(old(llm.stopGenerate), c) == LoadMessages(c.loadEvents) + tail;
      assert msgQueue == loaded + tail;
      llm.stopGenerate := false;
      finish := true;
    }
  }

  // ---------------------------------------------------------------------------
  // Retrieval-augmented prompts (process_rag).

  /** What rag.query returns: (query_success, context, rag_source). */
  datatype RagAnswer = RagAnswer(success: bool, context: string, source: string)

  const RagInstruction: string := "Answer the questions based on the information below. \n"
  const RagQuestion: string := "\n\nQuestion: "

  /** RAG_PROMPT_FORMAT filled with the context and the prompt. */
  function RagPrompt(context: string, prompt: string): (r: string)
    ensures |r| == |RagInstruction| + |context| + |RagQuestion| + |prompt|
    ensures r[..|RagInstruction|] == RagInstruction
    ensures r[|r| - |prompt|..] == prompt
  {
    RagInstruction + context + RagQuestion + prompt
  }

  /** The context is recoverable from a filled prompt whose question is known. */
  lemma RagPromptInjective(c1: string, c2: string, prompt: string)
    requires RagPrompt(c1, prompt) == RagPrompt(c2, prompt)
    ensures c1 == c2
  {
    var r := RagPrompt(c1, prompt);
    assert |c1| == |c2|;
    assert c1 == r[|RagInstruction|..|RagInstruction| + |c1|];
    assert c2 == RagPrompt(c2, prompt)[|RagInstruction|..|RagInstruction| + |c2|];
  }

  /**
   * process_rag: on a successful query, the formatted prompt, and the source
   * reported once through the callback with dtype 2 when there is a callback;
   * otherwise the prompt unchanged and no callback.
   */
  function ProcessRag(prompt: string, answer: RagAnswer, hasCallback: bool): (r: (string, seq<(string, int)>))
    ensures !answer.success ==> r.0 == prompt && r.1 == []
    ensures answer.success ==> r.0 == RagPrompt(answer.context, prompt)
    ensures |r.1| == (if answer.success && hasCallback then 1 else 0)
    ensures forall k :: 0 <= k < |r.1| ==> r.1[k] == (answer.source, 2)
  {
    if answer.success then
      (RagPrompt(answer.context, prompt), if hasCallback then [(answer.source, 2)] else [])
    else (prompt, [])
  }
}
