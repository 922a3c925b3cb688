/** The chat wrapper around the Qwen 2.5 Instruct model (llm/qwen.py): the
    prompt window over the conversation history, append-then-trim memory,
    lazy model loading and the system prompt. The model itself is an oracle:
    a function from the prompt to the decoded reply or an error. */
module Qwen {
  import opened Outcomes
  import opened Text

  datatype Role = System | User | Assistant

  /** One chat message (`Message` dataclass, also the `{"role", "content"}` dicts). */
  datatype Message = Message(role: Role, content: string)

  /** `ChatResponse` without its timing field. */
  datatype ChatResponse = ChatResponse(content: string, tokensUsed: nat)

  /** What the model engine produces: the decoded new tokens (before `strip()`)
      and how many tokens were generated. */
  datatype Generation = Generation(decoded: string, tokens: nat)

  /** One call of the model engine: the prompt messages and `max_new_tokens`. */
  datatype GenerationRequest = GenerationRequest(messages: seq<Message>, maxNewTokens: int)

  /** How loading weights from the hub can go: an error message if it fails, and
      whether CUDA is available on the machine. */
  datatype LoadEnv = LoadEnv(failure: Option<string>, cudaAvailable: bool)

  /** `QwenLLM.MODELS`. */
  const Models: map<string, string> := map[
    "0.5b" := "Qwen/Qwen2.5-0.5B-Instruct",
    "1.5b" := "Qwen/Qwen2.5-1.5B-Instruct",
    "3b" := "Qwen/Qwen2.5-3B-Instruct",
    "7b" := "Qwen/Qwen2.5-7B-Instruct"
  ]

  /** `QwenLLM.DEFAULT_SYSTEM_PROMPT`. */
  const DefaultSystemPrompt: string :=
    "You are a helpful voice assistant. You provide concise, friendly responses suitable for spoken conversation. "
    + "Keep responses brief and natural - typically 1-3 sentences unless more detail is needed. You can help with:\n"
    + "- Answering questions\n- Providing information\n- Casual conversation\n- Task assistance\n\n"
    + "Respond naturally as if speaking to someone."

  /** The text of the ValueError raised by `load_model` for a size not in `Models`
      (the options are listed in the dict's declaration order). */
  function UnknownSizeMessage(size: string): string {
    "Unknown model size: " + size + ". Options: ['0.5b', '1.5b', '3b', '7b']"
  }

  /** The device after a successful load: CUDA is kept only when asked for and available. */
  function DeviceAfterLoad(device: string, cudaAvailable: bool): string {
    if device == "cuda" && cudaAvailable then "cuda" else "cpu"
  }

  /** The history entries that go into the prompt: `history[-max:]`. */
  function MemoryWindow(history: seq<Message>, max: int): seq<Message> {
    SliceFrom(history, -max)
  }

  /** The messages `_build_messages` hands to the model. */
  function Prompt(systemPrompt: string, history: seq<Message>, max: int, userInput: string): seq<Message> {
    [Message(System, systemPrompt)] + MemoryWindow(history, max) + [Message(User, userInput)]
  }

  /** The history after a remembered turn: `h[-2*max:]` whenever `h` is longer than `2*max`. */
  function Trimmed(history: seq<Message>, max: int): seq<Message> {
    if |history| > max * 2 then SliceFrom(history, -max * 2) else history
  }

  /** A prompt is the system message, then the most recent `max` history
      entries in order, then the user message; with `max == 0` the slice
      `[-0:]` gives the whole history. */
  lemma PromptShape(systemPrompt: string, history: seq<Message>, max: int, userInput: string)
    ensures var p := Prompt(systemPrompt, history, max, userInput);
      && p[0] == Message(System, systemPrompt)
      && p[|p| - 1] == Message(User, userInput)
      && p[1..|p| - 1] == history[|history| - (|p| - 2)..]
      && (max > 0 ==> |p| == 2 + (if |history| < max then |history| else max))
      && (max == 0 ==> p[1..|p| - 1] == history)
  {
    var p := Prompt(systemPrompt, history, max, userInput);
    var w := MemoryWindow(history, max);
    assert p[1..|p| - 1] == w;
  }

  /** After a remembered turn with `max > 0`, the history holds the whole old
      history and the new pair when that fits in `2*max` entries, and exactly
      `2*max` entries otherwise; it ends with the new user/assistant pair, and
      everything before the pair is the most recent part of the old history. */
  lemma TrimmedKeepsRecent(old_history: seq<Message>, user: Message, assistant: Message, max: int)
    requires max > 0
    ensures var h := Trimmed(old_history + [user, assistant], max);
      && |h| <= 2 * max
      && |h| == (if |old_history| + 2 <= 2 * max then |old_history| + 2 else 2 * max)
      && |h| >= 2 && h[|h| - 2] == user && h[|h| - 1] == assistant
      && h[..|h| - 2] == old_history[|old_history| - (|h| - 2)..]
  {
    var full := old_history + [user, assistant];
    var h := Trimmed(full, max);
    assert h == full[|full| - |h|..];
    assert h[..|h| - 2] == full[|full| - |h|..|full| - 2];
  }

  /** With `max == 0` the trim never shortens the history: `h[-0:]` is `h`. */
  lemma TrimmedZeroKeepsAll(history: seq<Message>)
    ensures Trimmed(history, 0) == history
  {
  }

  /** The part of the wrapper that its methods change: the device, whether the
      model is loaded, and the conversation history. */
  datatype LlmState = LlmState(device: string, modelLoaded: bool, history: seq<Message>)

  /** What `load_model` reports and leaves, from state `st`. */
  function LoadOutcome(st: LlmState, modelSize: string, env: LoadEnv): (Option<string>, LlmState) {
    if modelSize !in Models then (Some(UnknownSizeMessage(modelSize)), st)
    else if env.failure.Some? then (env.failure, st)
    else (None, st.(device := DeviceAfterLoad(st.device, env.cudaAvailable), modelLoaded := true))
  }

  /** An unknown size is rejected before anything is loaded; a failed load
      leaves the state as it was; a successful one marks the model loaded and
      keeps CUDA only when it was asked for and is available. The history is
      never touched. */
  lemma LoadOutcomeSpec(st: LlmState, modelSize: string, env: LoadEnv)
    ensures var (err, after) := LoadOutcome(st, modelSize, env);
      && (modelSize !in Models ==> err == Some(UnknownSizeMessage(modelSize)))
      && (modelSize in Models ==> err == env.failure)
      && (err.Some? ==> after == st)
      && (err.None? ==> after.modelLoaded && after.history == st.history
                        && (after.device == "cuda" <==> st.device == "cuda" && env.cudaAvailable))
  {
  }

  /** What `chat` returns and leaves, from state `st`: load if needed, prompt
      the engine, strip the reply and, when remembering, append the turn and
      trim. */
  function ChatOutcome(st: LlmState, modelSize: string, systemPrompt: string, max: int, userInput: string,
                       generate: GenerationRequest -> Result<Generation>, env: LoadEnv,
                       maxNewTokens: int, remember: bool): (Result<ChatResponse>, LlmState)
  {
    var (err, ready) := if st.modelLoaded then (None, st) else LoadOutcome(st, modelSize, env);
    if err.Some? then (Err(err.value), ready)
    else
      match generate(GenerationRequest(Prompt(systemPrompt, st.history, max, userInput), maxNewTokens))
      case Err(e) => (Err(e), ready)
      case Ok(g) =>
        var reply := Strip(g.decoded);
        (Ok(ChatResponse(reply, g.tokens)),
         if remember then ready.(history := Trimmed(st.history + [Message(User, userInput), Message(Assistant, reply)], max))
         else ready)
  }

  /** Any failure of `chat` leaves the history untouched, and so does a turn
      that is not remembered; a failed load is reported as is; once the model
      is loaded the engine sees the prompt over the old history, and a
      remembered answer ends the new history with exactly the user message and
      the stripped reply, after at most `2*max - 2` of the most recent old
      entries. */
  lemma ChatOutcomeSpec(st: LlmState, modelSize: string, systemPrompt: string, max: int, userInput: string,
                        generate: GenerationRequest -> Result<Generation>, env: LoadEnv,
                        maxNewTokens: int, remember: bool)
    ensures var (r, after) := ChatOutcome(st, modelSize, systemPrompt, max, userInput, generate, env, maxNewTokens, remember);
      && (r.Err? || !remember ==> after.history == st.history)
      && (!st.modelLoaded && modelSize !in Models ==> r == Err(UnknownSizeMessage(modelSize)) && after == st)
      && (!st.modelLoaded && modelSize in Models && env.failure.Some? ==> r == Err(env.failure.value) && after == st)
      && (r.Ok? ==> after.modelLoaded)
  {
  }

  /** Once the model is loaded or loads, the answer is the stripped engine
      reply to the prompt over the old history, and a remembered turn with
      `max > 0` ends the new history with the user message and that reply,
      keeping the last `2*max` entries of the old history and the new pair. */
  lemma ChatOutcomeReply(st: LlmState, modelSize: string, systemPrompt: string, max: int, userInput: string,
                         generate: GenerationRequest -> Result<Generation>, env: LoadEnv,
                         maxNewTokens: int, remember: bool)
    requires st.modelLoaded || (modelSize in Models && env.failure.None?)
    ensures var (r, after) := ChatOutcome(st, modelSize, systemPrompt, max, userInput, generate, env, maxNewTokens, remember);
      var request := GenerationRequest(Prompt(systemPrompt, st.history, max, userInput), maxNewTokens);
      && (generate(request).Err? ==> r == Err(generate(request).message))
      && (generate(request).Ok? ==> r == Ok(ChatResponse(Strip(generate(request).value.decoded), generate(request).value.tokens)))
      && (generate(request).Ok? && remember && max > 0 ==>
            var h := after.history;
            && |h| <= 2 * max && |h| >= 2
            && |h| == (if |st.history| + 2 <= 2 * max then |st.history| + 2 else 2 * max)
            && h[|h| - 2] == Message(User, userInput)
            && h[|h| - 1] == Message(Assistant, Strip(generate(request).value.decoded))
            && h[..|h| - 2] == st.history[|st.history| - (|h| - 2)..])
  {
    var request := GenerationRequest(Prompt(systemPrompt, st.history, max, userInput), maxNewTokens);
    if generate(request).Ok? {
      var reply := Strip(generate(request).value.decoded);
      ChatOutcomeAnswered(st, modelSize, systemPrompt, max, userInput, generate, env, maxNewTokens, remember);
      if remember && max > 0 {
        TrimmedKeepsRecent(st.history, Message(User, userInput), Message(Assistant, reply), max);
      }
    }
  }

  /** An answered `chat` returns the stripped reply and, when remembering,
      leaves the old history with the new pair appended and trimmed. */
  lemma ChatOutcomeAnswered(st: LlmState, modelSize: string, systemPrompt: string, max: int, userInput: string,
                            generate: GenerationRequest -> Result<Generation>, env: LoadEnv,
                            maxNewTokens: int, remember: bool)
    requires st.modelLoaded || (modelSize in Models && env.failure.None?)
    requires generate(GenerationRequest(Prompt(systemPrompt, st.history, max, userInput), maxNewTokens)).Ok?
    ensures var g := generate(GenerationRequest(Prompt(systemPrompt, st.history, max, userInput), maxNewTokens)).value;
      var (r, after) := ChatOutcome(st, modelSize, systemPrompt, max, userInput, generate, env, maxNewTokens, remember);
      && r == Ok(ChatResponse(Strip(g.decoded), g.tokens))
      && (remember ==> after.history == Trimmed(st.history + [Message(User, userInput), Message(Assistant, Strip(g.decoded))], max))
  {
  }

  /** The wrapper object: configuration, whether the model is loaded, and the
      conversation history it owns. */
  class QwenLlm {
    const modelSize: string
    var device: string
    var systemPrompt: string
    const maxMemoryMessages: int
    /** `self.model is not None` (the tokenizer is loaded alongside it). */
    var modelLoaded: bool
    var history: seq<Message>

    /** The part of the object that `LoadModel` and `Chat` change. */
    function State(): LlmState
      reads this
    {
      LlmState(device, modelLoaded, history)
    }

    /** `QwenLLM.__init__`: a `None` or empty prompt falls back to the default;
        nothing is loaded and the history is empty. */
    constructor (modelSize: string := "1.5b", device: string := "cuda",
                 systemPrompt: Option<string> := None, maxMemoryMessages: int := 10)
      ensures this.modelSize == modelSize && this.device == device
      ensures this.maxMemoryMessages == maxMemoryMessages
      ensures this.systemPrompt == if systemPrompt == None || systemPrompt.value == "" then DefaultSystemPrompt
                                   else systemPrompt.value
      ensures !modelLoaded && history == []
    {
      this.modelSize := modelSize;
      this.device := device;
      this.systemPrompt := if systemPrompt == None || systemPrompt.value == "" then DefaultSystemPrompt
                           else systemPrompt.value;
      this.maxMemoryMessages := maxMemoryMessages;
      modelLoaded := false;
      history := [];
    }

    /** `load_model`: an unknown size is rejected before anything is loaded; a
        failed load leaves the wrapper as it was; a successful one marks the
        model loaded and falls back to the CPU when CUDA is not usable. The
        prompt and the history are never touched. */
    method LoadModel(env: LoadEnv) returns (err: Option<string>)
      modifies this`modelLoaded, this`device
      ensures (err, State()) == LoadOutcome(old(State()), modelSize, env)
    {
      if modelSize !in Models {
        return Some(UnknownSizeMessage(modelSize));
      }
      if env.failure.Some? {
        return env.failure;
      }
      device := DeviceAfterLoad(device, env.cudaAvailable);
      modelLoaded := true;
      err := None;
    }

    /** `_build_messages`: the system message, the history window copied entry
        by entry, then the user message. */
    method BuildMessages(userInput: string) returns (messages: seq<Message>)
      ensures messages == Prompt(systemPrompt, history, maxMemoryMessages, userInput)
      ensures maxMemoryMessages > 0 ==>
        |messages| == 2 + (if |history| < maxMemoryMessages then |history| else maxMemoryMessages)
    {
      messages := [Message(System, systemPrompt)];
      var window := history[|history| - |MemoryWindow(history, maxMemoryMessages)|..];
      var i := 0;
      while i < |window|
        invariant 0 <= i <= |window|
        invariant messages == [Message(System, systemPrompt)] + window[..i]
      {
        messages := messages + [window[i]];
        i := i + 1;
      }
      assert window[..i] == MemoryWindow(history, maxMemoryMessages);
      messages := messages + [Message(User, userInput)];
      PromptShape(systemPrompt, history, maxMemoryMessages, userInput);
    }

    /** `chat`: loads the model first if needed, builds the prompt, asks the
        engine, strips the decoded reply and, when `remember` holds, appends the
        user and assistant messages and trims to the last `2*max` entries. Any
        failure is re-raised with the history untouched, because the history is
        updated only after decoding. */
    method Chat(userInput: string, generate: GenerationRequest -> Result<Generation>, env: LoadEnv,
                maxNewTokens: int := 256, remember: bool := true)
      returns (r: Result<ChatResponse>)
      modifies this`modelLoaded, this`device, this`history
      ensures (r, State()) == ChatOutcome(old(State()), modelSize, systemPrompt, maxMemoryMessages, userInput,
                                          generate, env, maxNewTokens, remember)
    {
      if !modelLoaded {
        var err := LoadModel(env);
        if err.Some? {
          return Err(err.value);
        }
      }
      var messages := BuildMessages(userInput);
      var outcome := generate(GenerationRequest(messages, maxNewTokens));
      if outcome.Err? {
        return Err(outcome.message);
      }
      var responseText := Strip(outcome.value.decoded);
      if remember {
        history := history + [Message(User, userInput), Message(Assistant, responseText)];
        if |history| > maxMemoryMessages * 2 {
          history := SliceFrom(history, -maxMemoryMessages * 2);
        }
      }
      r := Ok(ChatResponse(responseText, outcome.value.tokens));
    }

    /** `clear_history`: only the history is emptied. */
    method ClearHistory()
      modifies this`history
      ensures history == []
    {
      history := [];
    }

    /** `set_system_prompt`: only the prompt is replaced. */
    method SetSystemPrompt(prompt: string)
      modifies this`systemPrompt
      ensures systemPrompt == prompt
    {
      systemPrompt := prompt;
    }
  }
}
