# Voice assistant orchestration core, modelled in Dafny

This project models the orchestration and classification layer of the
Malayalam-first voice assistant `logentic` (its `voice-assistant/src` tree).
It also proves properties of that model. The model's parts follow the
program's own components.

- **`Pipeline`**: the end-to-end pipeline `VoiceAssistantPipeline`. It takes
  speech or text in, translates Malayalam to English, detects the intent,
  gets a chat reply, translates it back and speaks it. Its engine handles
  are built lazily, once each, and every stage error is caught into one
  `PipelineResult`.
- **`PipelineIntent`**: the pipeline's `IntentDetector`. It scores keyword
  categories by substring counts, and the first maximum wins. It also parses
  the LLM's `INTENT:/ENTITIES:/DESCRIPTION:` reply line by line, and it falls
  back to GENERAL on every LLM failure.
- **`Agents`**: the `AgentOrchestrator` agent router. It classifies an input
  by keyword lists in priority order and routes it through the compiled
  workflow's edge table or through the simple fallback. Each agent writes
  its own entry into an insertion-ordered `agent_outputs` dictionary, and
  the responses are joined with spaces.
- **`Qwen`**: the `QwenLLM` chat wrapper. It covers the prompt window over
  the conversation history, the append-then-trim memory, the model-size
  check and lazy loading, and the system prompt.
- **`Nlu`**: the `IntentClassifier` of the NLU package. Its rule confidences
  are `min(m/k + 0.3, 1)`, kept exact as `real`. The best intent changes only
  on a strictly greater confidence. Number entities are deduplicated against
  the entities already collected.
- **`Translation`**: the `IndicTranslator` bookkeeping. It covers direction
  choice, language codes, the source tag and the stripping of the target
  tag, and lazy per-direction loading.
- **`Tts`**: the `TTSEngine` front end. It covers the engine cache, the
  result echo of `synthesize`, the per-backend answers of `compare`, and the
  counting part of `benchmark`.
- **`Edge`** and **`Audio`**: the edge device's URL derivation in
  `EdgeClient`. Also the `AudioHandler` settings and the chunk loop of
  `record_until_silence`, which stops on silence.
- **`Sentences`**: the example sentences of the test suite, classified by
  `Nlu` and by the pipeline's keyword detector.
- **`Text`** and **`Outcomes`**: Python string operations on `seq<char>`.
  These are ASCII `lower`, `in` on strings, `strip`, `rstrip`, `split`,
  `join`, `replace`, `startswith` and negative slicing. `Outcomes` holds the
  `Option` and `Result` types that carry Python's `None` and raised
  exceptions, with an exception as its message text.

The machine-learning engines are not modelled: speech recognition,
translation, LLM generation and speech synthesis. Each one is a parameter,
given as a function from the request the code builds to either a value or an
error message. The same holds for whether a library constructor or
`load_model` raises, and whether CUDA is available. Objects whose fields the
program updates are Dafny classes. Examples are the pipeline, the chat
wrapper, the translator, the TTS engine cache, the detector, the agent state
and the audio handler. Each method is proved against a function that
describes the call's outcome from the old state. The properties of the
program are lemmas about those functions.

Where the program and its docstrings disagree, the model follows the code:

- The pipeline's back-translation always runs.
- Intent detection runs only when a detector was loaded beforehand. The
  pipeline's own creation of a detector inside `process` cannot be reached.
- A translator or chat model whose load failed keeps its handle.
- With `max_memory_messages == 0`, the slice `[-0:]` puts the whole history
  into the prompt, and the trim never shortens it.
- `_route_to_agent`'s "unknown" default never applies.

## Model

| member | source | states |
|---|---|---|
| Pipeline.VoiceAssistantPipeline.constructor | voice-assistant/src/pipeline/orchestrator.py:64-96 | The six settings are stored, the chat prompt is the voice prompt, and no engine handle exists. |
| Pipeline.VoiceAssistantPipeline.LoadAsr | voice-assistant/src/pipeline/orchestrator.py:134-147 | Does nothing once a handle exists. For Whisper it sets the handle before loading, so a failed load keeps it. Any other engine raises "Unknown ASR engine: …". |
| Pipeline.VoiceAssistantPipeline.LoadTranslator | voice-assistant/src/pipeline/orchestrator.py:149-157 | Does nothing once a translator exists. Otherwise it builds a fresh translator on the pipeline's device and preloads "indic-en" then "en-indic", reporting the first load error. |
| Pipeline.VoiceAssistantPipeline.LoadLlm | voice-assistant/src/pipeline/orchestrator.py:159-179 | Does nothing once a chat model exists. Otherwise it builds the wrapper with the configured size and device, installs the voice prompt, then loads the model, reporting its error. |
| Pipeline.VoiceAssistantPipeline.LoadTts | voice-assistant/src/pipeline/orchestrator.py:181-187 | Does nothing once an engine exists. Otherwise it creates a TTS engine for the configured backend and device with an empty cache. |
| Pipeline.VoiceAssistantPipeline.LoadIntentDetector | voice-assistant/src/pipeline/orchestrator.py:189-195 | Does nothing once a detector exists, keeping the same object. Otherwise it creates a fresh detector with `use_llm` off and no LLM. |
| Pipeline.VoiceAssistantPipeline.LoadComponents | voice-assistant/src/pipeline/orchestrator.py:100-132 | The handles and the error are those of ASR, translator, LLM and TTS loading in that order, then the detector only when `detect_intent` holds, stopping at the first error. |
| Pipeline.LoadComponentsSpec | voice-assistant/src/pipeline/orchestrator.py:100-195 | Success leaves all four engines present, and a chat model the run created is loaded. The detector is then present exactly when it was before or detection is on. A failed run creates neither the TTS engine nor the detector. An unknown ASR engine fails first with nothing loaded. |
| Pipeline.LoadComponentsOnce | voice-assistant/src/pipeline/orchestrator.py:136-192 | After a successful load, loading again changes nothing and cannot fail, whatever the engines would do now. Each engine is thus constructed at most once. |
| Pipeline.ReadStepSpec | voice-assistant/src/pipeline/orchestrator.py:221-232 | Stage 1 touches only `malayalam_text` and the ASR handle. An audio path wins, giving the transcription; otherwise a non-empty text input is copied. With neither, the stage raises the missing-input error before any engine is used. |
| Pipeline.TranslateStageSpec | voice-assistant/src/pipeline/orchestrator.py:237-272 | A translation through the pipeline succeeds only with the model's output for the tagged text, with a leading target tag stripped. It changes no handle but the translator's. |
| Pipeline.EnglishStepSpec | voice-assistant/src/pipeline/orchestrator.py:235-243 | Input that is not Malayalam gives `english_text == malayalam_text`, and the translator is untouched. Malayalam input gives the `ml_to_en` translation of the Malayalam text. |
| Pipeline.IntentStepSpec | voice-assistant/src/pipeline/orchestrator.py:246-259 | Stage 3 never raises and creates nothing. The intent fields take the offline detection of both texts exactly when detection is on and the detector was loaded; otherwise the result is unchanged. |
| Pipeline.ReplyStepSpec | voice-assistant/src/pipeline/orchestrator.py:262-266 | `english_response` is the stripped engine reply to the voice prompt over the remembered history. The chat history gains that turn, trimmed; nothing else changes. |
| Pipeline.BackStepSpec | voice-assistant/src/pipeline/orchestrator.py:270-273 | `malayalam_response` is the `en_to_ml` translation of the English reply, whatever the input language was. Only the translator changes. |
| Pipeline.SpeechStepSpec | voice-assistant/src/pipeline/orchestrator.py:277-285 | `audio_output` is the audio that the configured backend synthesises for the Malayalam reply in language "ml" at the given path. Only the TTS engine cache changes. |
| Pipeline.ProcessOutcomeSteps | voice-assistant/src/pipeline/orchestrator.py:216-296 | The outcome of `process` is the six stage steps applied in order to the default result. |
| Pipeline.ProcessNeedsInput | voice-assistant/src/pipeline/orchestrator.py:228-293 | With neither an audio path nor a text, the result has `success` false and the error "Either audio_path or text_input must be provided", and no handle changes. |
| Pipeline.ProcessUnknownAsr | voice-assistant/src/pipeline/orchestrator.py:221-224 | With an audio path, no ASR handle and an engine other than "whisper", the call fails with "Unknown ASR engine: …" and nothing is loaded. |
| Pipeline.SettledAfter | voice-assistant/src/pipeline/orchestrator.py:219-293 | After any number of stages, `audio_input` echoes the path, `success` is false exactly when an error is recorded, and the fields of stages not yet completed keep their defaults. |
| Pipeline.RecordedAfter | voice-assistant/src/pipeline/orchestrator.py:219-287 | After any number of stages, each completed stage has recorded its text from the previous stage's field. |
| Pipeline.ProcessRecords | voice-assistant/src/pipeline/orchestrator.py:219-287 | After `process`, every completed stage holds the value its engine produced from the previous stage's output. |
| Pipeline.ProcessSettles | voice-assistant/src/pipeline/orchestrator.py:219-293 | `success` is false exactly when `error` is set, which is exactly when a stage raised. On success all six stages completed. After a raise, the fields of the skipped stages keep their defaults and the earlier ones stay filled. |
| Pipeline.VoiceAssistantPipeline.ReadStage | voice-assistant/src/pipeline/orchestrator.py:221-232 | On a call still going, returns the stage-1 step of the result and handles; a failed call passes through. |
| Pipeline.VoiceAssistantPipeline.EnglishStage | voice-assistant/src/pipeline/orchestrator.py:235-243 | The stage-2 step of the result and handles. |
| Pipeline.VoiceAssistantPipeline.IntentStage | voice-assistant/src/pipeline/orchestrator.py:246-259 | The stage-3 step of the result, calling the loaded detector. |
| Pipeline.VoiceAssistantPipeline.ReplyStage | voice-assistant/src/pipeline/orchestrator.py:262-267 | The stage-4 step of the result and the chat model's state. |
| Pipeline.VoiceAssistantPipeline.BackStage | voice-assistant/src/pipeline/orchestrator.py:270-274 | The stage-5 step of the result and the translator's state. |
| Pipeline.VoiceAssistantPipeline.SpeechStage | voice-assistant/src/pipeline/orchestrator.py:277-286 | The stage-6 step of the result and the TTS engine cache. |
| Pipeline.VoiceAssistantPipeline.Understand | voice-assistant/src/pipeline/orchestrator.py:216-243 | Stages 1 and 2 from the default result for the audio path. |
| Pipeline.VoiceAssistantPipeline.Converse | voice-assistant/src/pipeline/orchestrator.py:246-267 | Stages 3 and 4 after the first two. |
| Pipeline.VoiceAssistantPipeline.Voice | voice-assistant/src/pipeline/orchestrator.py:270-293 | Stages 5 and 6 after the first four. |
| Pipeline.VoiceAssistantPipeline.Process | voice-assistant/src/pipeline/orchestrator.py:197-296 | The returned result and the new handles are those of the six stages run in order from the default result; the properties follow from ProcessSettles and ProcessRecords. |
| Pipeline.VoiceAssistantPipeline.ProcessText | voice-assistant/src/pipeline/orchestrator.py:298-319 | Exactly `process` with no audio path and the text as input. |
| Pipeline.VoiceAssistantPipeline.ClearConversation | voice-assistant/src/pipeline/orchestrator.py:321-325 | Empties only the chat history, and only when a chat model exists; otherwise nothing changes. |
| PipelineIntent.FromValue | voice-assistant/src/pipeline/intent.py:14-27 | `IntentType(s)` finds the member whose value is `s`, and gives None exactly when no member has that value. |
| PipelineIntent.FromValueOfValue | voice-assistant/src/pipeline/intent.py:14-27 | Every member is found again from its value. |
| PipelineIntent.ScoreTable | voice-assistant/src/pipeline/intent.py:159-160 | One entry per pattern category in `INTENT_PATTERNS` order. Each score is the number of that category's keywords occurring in the text. |
| PipelineIntent.PositiveFirstMax | voice-assistant/src/pipeline/intent.py:161-166 | The first maximum of the positive entries leads the whole table. There is none exactly when every score is zero. |
| PipelineIntent.WinnerSpec | voice-assistant/src/pipeline/intent.py:164-168 | No winner exactly when all scores are zero. Otherwise the winner has a positive score, no category scores more, and every earlier category scores strictly less. |
| PipelineIntent.WinnerFromTable | voice-assistant/src/pipeline/intent.py:166 | The winner is one of the table's own categories. |
| PipelineIntent.KeywordIntentSpec | voice-assistant/src/pipeline/intent.py:153-168 | `_keyword_detect` returns None exactly when no keyword occurs in the lowercased text. Otherwise it returns the highest-scoring category, the earliest in pattern order among ties. |
| PipelineIntent.KeywordIntentCategory | voice-assistant/src/pipeline/intent.py:48-77 | A keyword hit is one of the seven pattern categories, never GENERAL or UNKNOWN. |
| PipelineIntent.TieGoesToEarliest | voice-assistant/src/pipeline/intent.py:164-166 | On the score table with GREETING and QUESTION both at 2 and every other category at 0, `max` returns GREETING, the earlier of the tied keys. |
| Sentences.KeywordHello | voice-assistant/src/pipeline/intent.py:153-168 | "hello how are you" scores 2 for GREETING and 2 for QUESTION, and `_keyword_detect` returns GREETING. |
| PipelineIntent.KeywordDescription | voice-assistant/src/pipeline/intent.py:249-261 | A keyword hit is described by its category's own canned text, never "General query". |
| PipelineIntent.PairOf | voice-assistant/src/pipeline/intent.py:234-236 | A piece without ':' gives nothing. Otherwise the key and value are the stripped text before and after the first ':'. |
| PipelineIntent.PairOfSplit | voice-assistant/src/pipeline/intent.py:235-236 | The pair glues back to the piece around its first ':', up to stripping. |
| PipelineIntent.PairsOf | voice-assistant/src/pipeline/intent.py:233-236 | One entry per comma piece, each that piece's pair. |
| PipelineIntent.ClassifyEntities | voice-assistant/src/pipeline/intent.py:229-233 | An ENTITIES list reading "none" in any case carries no pairs. Any other list carries one entry per comma piece. |
| PipelineIntent.AddPairsKeys | voice-assistant/src/pipeline/intent.py:233-236 | A key is present after the pair loop exactly when it was present before or some piece names it. |
| PipelineIntent.AddPairsLastWins | voice-assistant/src/pipeline/intent.py:236 | A repeated key keeps the value of the last piece naming it. |
| PipelineIntent.AddPairsUntouched | voice-assistant/src/pipeline/intent.py:233-236 | A key that no piece names keeps its value. |
| PipelineIntent.AddPairsAppend | voice-assistant/src/pipeline/intent.py:221-236 | The pair loop over two lists in turn equals the loop over their concatenation, so entities accumulate across ENTITIES lines. |
| PipelineIntent.IntentOf | voice-assistant/src/pipeline/intent.py:224-228 | The member an INTENT value names, GENERAL when it names none. |
| PipelineIntent.ClassifyAll | voice-assistant/src/pipeline/intent.py:220-238 | One labelled line per reply line, each the label of that stripped line. |
| PipelineIntent.NoIntentLineKeeps | voice-assistant/src/pipeline/intent.py:216-228 | Without INTENT lines the intent keeps its starting value. |
| PipelineIntent.LastIntentLineWins | voice-assistant/src/pipeline/intent.py:221-228 | The last INTENT line decides the intent, whatever came before it. |
| PipelineIntent.NoDescriptionLineKeeps | voice-assistant/src/pipeline/intent.py:218-238 | Without DESCRIPTION lines the description keeps its starting value. |
| PipelineIntent.LastDescriptionLineWins | voice-assistant/src/pipeline/intent.py:221-238 | The last DESCRIPTION line decides the description. |
| PipelineIntent.EntitiesFromLines | voice-assistant/src/pipeline/intent.py:217-236 | The entities are the pair loop over the pieces of all ENTITIES lines in order, so a later line overrides an earlier one. |
| PipelineIntent.NoEntitiesLine | voice-assistant/src/pipeline/intent.py:217-229 | Without ENTITIES lines there are no pairs. |
| PipelineIntent.ParsedIntentShape | voice-assistant/src/pipeline/intent.py:216-247 | The parsed intent always has confidence 0.85 and echoes both texts. A reply without labelled lines gives GENERAL, no entities and "General query". |
| PipelineIntent.AddEntityPairs | voice-assistant/src/pipeline/intent.py:233-236 | The loop over the comma pieces leaves the pair loop's map. |
| PipelineIntent.ReadLine | voice-assistant/src/pipeline/intent.py:222-238 | One line's effect on the intent, the entities and the description. |
| PipelineIntent.ParseLlmResponse | voice-assistant/src/pipeline/intent.py:209-247 | The line loop returns the parsed intent of the reply. |
| PipelineIntent.OfflineDetectionSpec | voice-assistant/src/pipeline/intent.py:122-151 | The analysis text is `english_text` lowercased when it is non-empty, else `text` lowercased. A hit gives the hit category itself, confidence 0.8, no entities, `english_text or text` and that category's description. No hit gives GENERAL, 0.5, "General conversation or query". |
| PipelineIntent.LlmOutcomeSpec | voice-assistant/src/pipeline/intent.py:170-207 | An unavailable LLM, a failed load and a raising generation all give GENERAL, 0.5, "General query". A reply gives exactly `ParsedIntent` of the stripped reply text, with confidence 0.85. |
| PipelineIntent.IntentDetector.constructor | voice-assistant/src/pipeline/intent.py:79-87 | `use_llm` is stored and there is no LLM. |
| PipelineIntent.IntentDetector.GetLlm | voice-assistant/src/pipeline/intent.py:89-104 | Returns null when `use_llm` is off. Otherwise it returns the existing LLM, or creates the 1.5B wrapper with the classifier prompt once, fresh, unloaded, on "cuda" and with no history. |
| PipelineIntent.IntentDetector.KeywordDetect | voice-assistant/src/pipeline/intent.py:153-168 | The scoring loop and `max` return `_keyword_detect`'s winner for the lowercased text. |
| PipelineIntent.IntentDetector.LlmDetect | voice-assistant/src/pipeline/intent.py:170-207 | Returns the LLM outcome. The LLM is kept, or created fresh, and is left in the state one unremembered `chat` with 100 new tokens leaves from its old (or initial) state, so its history never changes. |
| PipelineIntent.IntentDetector.Detect | voice-assistant/src/pipeline/intent.py:106-151 | A keyword hit, or `use_llm` off, returns the offline detection and leaves the LLM untouched. Otherwise the result is the LLM outcome, and the LLM is in the state that one classifier `chat` leaves. |
| Agents.ValueInjective | voice-assistant/src/agents/orchestrator.py:24-30 | Distinct intents have distinct string values. |
| Agents.AnyInSpec | voice-assistant/src/agents/orchestrator.py:112-118 | `any(word in text …)` holds exactly when some word of the list occurs in the text. |
| Agents.ClassifySpec | voice-assistant/src/agents/orchestrator.py:106-118 | Information words decide first, then task words, then smart-home words, else general chat. Each branch holds exactly when its words occur and no earlier list's do, and "unknown" is never chosen. |
| Agents.InformationOutranksTask | voice-assistant/src/agents/orchestrator.py:112-115 | An input containing both "what" and "remind" is an information query. |
| Agents.Names | voice-assistant/src/agents/orchestrator.py:128-180 | The dictionary's names in insertion order, one per entry. |
| Agents.PutSpec | voice-assistant/src/agents/orchestrator.py:136-166 | Assignment appends an absent name last. A present name keeps its place and gets the new value. Every other entry is unchanged. |
| Agents.ResponsesSpec | voice-assistant/src/agents/orchestrator.py:171-177 | Each response comes from an entry at or after its own position, at most one per entry. There are none exactly when no entry has one. |
| Agents.ResponsesAppend | voice-assistant/src/agents/orchestrator.py:171-177 | The responses of `a + b` are those of `a` followed by those of `b`, so every entry's response is kept, in insertion order. |
| Agents.ResponsesSingle | voice-assistant/src/agents/orchestrator.py:171-177 | One entry contributes its "response" value if it has one, and nothing otherwise. |
| Agents.FinalResponseSingle | voice-assistant/src/agents/orchestrator.py:176-179 | With one agent output, the final response is that agent's response. With none, it is "I couldn't process your request." |
| Agents.WorkflowRouting | voice-assistant/src/agents/orchestrator.py:74-83 | The edge table sends information to info_agent, task to task_agent, and general chat and unknown to chat_agent. Smart home has no edge. |
| Agents.ProcessFallback | voice-assistant/src/agents/orchestrator.py:182-216 | Without a graph the response is always "[Chat Agent] I understand you said: " + input. The reported intent is the classification, and the language is echoed. |
| Agents.ProcessWorkflow | voice-assistant/src/agents/orchestrator.py:182-216 | In the graph, each routed intent gets its agent's response and the classified intent. A smart-home input raises for want of an edge. |
| Agents.AgentState.constructor | voice-assistant/src/agents/orchestrator.py:193-199 | The initial state holds the input and the language, with no intent, no entities, empty outputs, no final response and no error. |
| Agents.AgentOrchestrator.constructor | voice-assistant/src/agents/orchestrator.py:44-53 | `config or {}`, no graph and no registered agents. |
| Agents.AgentOrchestrator.Setup | voice-assistant/src/agents/orchestrator.py:55-99 | With LangGraph available the graph is the compiled edge table; otherwise there is no graph (the simple fallback). |
| Agents.AgentOrchestrator.ClassifyIntent | voice-assistant/src/agents/orchestrator.py:106-122 | Sets only `state["intent"]`, to the classification's value. |
| Agents.AgentOrchestrator.RunInfoAgent | voice-assistant/src/agents/orchestrator.py:128-140 | Writes only the "info_agent" entry, holding its tag, the input and empty sources. |
| Agents.AgentOrchestrator.RunTaskAgent | voice-assistant/src/agents/orchestrator.py:142-154 | Writes only the "task_agent" entry, holding its tag, the input and `task_created` false. |
| Agents.AgentOrchestrator.RunChatAgent | voice-assistant/src/agents/orchestrator.py:156-167 | Writes only the "chat_agent" entry, holding its tag and the input. |
| Agents.AgentOrchestrator.GenerateResponse | voice-assistant/src/agents/orchestrator.py:169-180 | The loop collects the responses in insertion order. `final_response` becomes their space-join, or the no-response text. |
| Agents.AgentOrchestrator.Process | voice-assistant/src/agents/orchestrator.py:182-216 | Runs a fresh state through the graph or the fallback and returns the process outcome, whose properties are ProcessFallback and ProcessWorkflow. |
| Qwen.PromptShape | voice-assistant/src/llm/qwen.py:120-131 | The prompt is the system message, the most recent history entries in order, then the user message. With max > 0 its length is 2 + min(len(history), max). With max == 0 the whole history is included. |
| Qwen.TrimmedKeepsRecent | voice-assistant/src/llm/qwen.py:202-208 | After a remembered turn with max > 0, the history holds the old history plus the new pair when that is at most 2·max entries, and exactly 2·max otherwise. It ends with the new user and assistant messages, and the rest is the most recent part of the old history. |
| Qwen.TrimmedZeroKeepsAll | voice-assistant/src/llm/qwen.py:207-208 | With max == 0 the trim never shortens the history. |
| Qwen.LoadOutcomeSpec | voice-assistant/src/llm/qwen.py:79-118 | An unknown size raises "Unknown model size: …" before anything is loaded. A failed load leaves the state unchanged. Success marks the model loaded and keeps CUDA exactly when it was requested and is available. The history is never touched. |
| Qwen.ChatOutcomeSpec | voice-assistant/src/llm/qwen.py:133-220 | Any failure, and any turn that is not remembered, leaves the history unchanged. A failed load is raised as is. A returned answer implies the model is loaded. |
| Qwen.ChatOutcomeReply | voice-assistant/src/llm/qwen.py:160-216 | Once the model is loaded, the answer is the stripped engine reply to the prompt over the old history. A remembered turn with max > 0 ends the history with exactly that pair, after the most recent old entries, for min(old length + 2, 2·max) entries in all. |
| Qwen.ChatOutcomeAnswered | voice-assistant/src/llm/qwen.py:191-216 | An answered chat returns the stripped reply and its token count. When remembering, the new history is the old one plus the user and assistant messages, trimmed to the last 2·max entries. |
| Qwen.QwenLlm.constructor | voice-assistant/src/llm/qwen.py:54-77 | A None or empty prompt falls back to `DEFAULT_SYSTEM_PROMPT`. The settings are stored, nothing is loaded, and the history is empty. |
| Qwen.QwenLlm.LoadModel | voice-assistant/src/llm/qwen.py:79-118 | The error and the new device and loaded flag are the load outcome. |
| Qwen.QwenLlm.BuildMessages | voice-assistant/src/llm/qwen.py:120-131 | The append loop returns the prompt, of length 2 + min(len(history), max) when max > 0. |
| Qwen.QwenLlm.Chat | voice-assistant/src/llm/qwen.py:133-220 | The answer and the new state are the chat outcome. |
| Qwen.QwenLlm.ClearHistory | voice-assistant/src/llm/qwen.py:259-262 | Only the history is emptied. |
| Qwen.QwenLlm.SetSystemPrompt | voice-assistant/src/llm/qwen.py:264-267 | Only the system prompt is replaced. |
| Nlu.ConfSpec | voice-assistant/src/nlu/intent.py:81-83 | An intent's confidence is 0 exactly when none of its keywords occurs. Otherwise it lies in (0.3, 1], and it is 1 when every keyword occurs. |
| Nlu.ConfidenceRange | voice-assistant/src/nlu/intent.py:83 | `min(m/k + 0.3, 1)` for 0 < m ≤ k lies in (0.3, 1], and it is 1 at m == k. |
| Nlu.BestIsMax | voice-assistant/src/nlu/intent.py:77-86 | The scan's confidence is the greatest in the table, and it stays at the start value when every confidence is 0. |
| Nlu.BestSpec | voice-assistant/src/nlu/intent.py:80-86 | When any keyword matches, the scan picks the first entry of greatest confidence, so ties go to the earliest intent. |
| Nlu.KeywordResultSpec | voice-assistant/src/nlu/intent.py:75-96 | The result is "unknown" with confidence 0 exactly when no keyword of any intent occurs. Otherwise it is the first intent of greatest confidence, in (0.3, 1]. The language is echoed and the entities are the extracted ones. |
| Nlu.SoleLeader | voice-assistant/src/nlu/intent.py:80-86 | An intent that is the only one with a keyword in the text wins, wherever it sits in the table. |
| Sentences.ClassifyHello | voice-assistant/tests/test_basic.py:78-79 | `classify("hello how are you")` gives "greeting". |
| Sentences.ClassifyWeather | voice-assistant/tests/test_basic.py:82-83 | `classify("what is the weather today")` gives "weather". |
| Sentences.ClassifyReminder | voice-assistant/tests/test_basic.py:86-87 | `classify("remind me to call mom")` gives "reminder". |
| Nlu.Values | voice-assistant/src/nlu/intent.py:125 | The entities' values, one per entity, in order. |
| Nlu.TimeEntities | voice-assistant/src/nlu/intent.py:117-119 | One time entity per time match, in order. |
| Nlu.WithNumbersSpec | voice-assistant/src/nlu/intent.py:122-126 | The number loop keeps its starting entities as a prefix and appends only number entities for the given matches. No appended value was present before, and every match ends up present as a value. |
| Nlu.EntitiesSpec | voice-assistant/src/nlu/intent.py:110-128 | All time matches come first, in order. Then come numbers whose values are pairwise distinct and differ from every time value. Every number match is present. |
| Nlu.SupportedIntents | voice-assistant/src/nlu/intent.py:130-132 | The `INTENTS` keys in declaration order. |
| Nlu.SupportedIntentsNamed | voice-assistant/tests/test_basic.py:88-95 | `get_supported_intents()` includes "greeting" and "weather", as the test asserts, and not "unknown". |
| Nlu.IntentClassifier.constructor | voice-assistant/src/nlu/intent.py:41-49 | The model type is stored and no model is loaded. |
| Nlu.IntentClassifier.Classify | voice-assistant/src/nlu/intent.py:51-73 | Every model type gives the keyword classification of the lowercased text, so the result does not depend on the model type. |
| Nlu.IntentClassifier.MlClassify | voice-assistant/src/nlu/intent.py:98-102 | The keyword classification of the lowercased text. |
| Nlu.IntentClassifier.LlmClassify | voice-assistant/src/nlu/intent.py:104-108 | The keyword classification of the lowercased text. |
| Nlu.IntentClassifier.KeywordClassify | voice-assistant/src/nlu/intent.py:75-96 | The scanning loop returns the keyword result. |
| Nlu.IntentClassifier.ExtractEntities | voice-assistant/src/nlu/intent.py:110-128 | The two append loops return the extracted entities. |
| Translation.Direction | voice-assistant/src/translation/indictrans.py:127-131 | The direction is a known model, and it is "en-indic" exactly when the source language is "en". |
| Translation.StripTagOfTagged | voice-assistant/src/translation/indictrans.py:148-180 | Tagging a text with a code and then stripping that tag gives the text back, when the text has no whitespace at its ends. |
| Translation.LoadAllGrows | voice-assistant/src/translation/indictrans.py:72-104 | Loading never drops or changes a loaded direction and adds only requested directions. Each added one holds the model `MODELS` names, even when a later direction fails. |
| Translation.LoadAllCovers | voice-assistant/src/translation/indictrans.py:72-98 | A run without error has loaded every requested direction. |
| Translation.LoadAllLoadedNoop | voice-assistant/src/translation/indictrans.py:72-74 | When every requested direction is loaded, `load_models` does nothing. |
| Translation.LoadAllIdempotent | voice-assistant/src/translation/indictrans.py:59-104 | After a run without error, running `load_models` again on the same directions changes nothing and raises nothing. |
| Translation.TranslateOutcomeSpec | voice-assistant/src/translation/indictrans.py:106-188 | A translation raises, or it returns the model's output for `src_code + " " + text` with a leading target tag removed. The needed direction is then loaded. A loaded direction is not reloaded, and a failing load raises with the state unchanged. |
| Translation.SupportedLanguagesMatchCodes | voice-assistant/src/translation/indictrans.py:198-211 | The keys of `get_supported_languages` are the keys of `LANG_CODES`. |
| Translation.IndicTranslator.constructor | voice-assistant/src/translation/indictrans.py:40-57 | The device is stored and no model or tokenizer is loaded. |
| Translation.IndicTranslator.LoadModels | voice-assistant/src/translation/indictrans.py:59-104 | On the requested directions (by default both), the new state and the error are the loading outcome. Models and tokenizers keep the same keys. |
| Translation.IndicTranslator.Translate | voice-assistant/src/translation/indictrans.py:106-188 | The answer and the new state are the translation outcome. |
| Translation.IndicTranslator.MlToEn | voice-assistant/src/translation/indictrans.py:190-192 | `translate(text, "ml", "en")`. |
| Translation.IndicTranslator.EnToMl | voice-assistant/src/translation/indictrans.py:194-196 | `translate(text, "en", "ml")`. |
| Tts.EngineForSpec | voice-assistant/src/tts/tts_engine.py:65-83 | `_get_engine` succeeds exactly for a cached or constructible known backend, returning that backend's engine. An unknown backend raises "Unknown backend: …". The cache stays valid and gains the backend exactly on success. |
| Tts.EngineCachedOnce | voice-assistant/src/tts/tts_engine.py:67-83 | Once a backend is cached, later lookups return the same engine and leave the cache as it is, whatever the constructors would do then. |
| Tts.LookupAllGrows | voice-assistant/src/tts/tts_engine.py:65-83 | After a series of lookups the cache is still valid. It holds what it held before plus exactly the listed backends whose engines could be had. |
| Tts.Resolved | voice-assistant/src/tts/tts_engine.py:106 | Each name resolves to `backend or default_backend`, one per name. |
| Tts.SynthesisOutcomeSpec | voice-assistant/src/tts/tts_engine.py:85-134 | `synthesize` succeeds exactly when the engine can be had and synthesis succeeds. The result holds the audio and echoes the backend, language and text. The sample rate is 16000 for MMS, 24000 for Cartesia, and 22050 otherwise. |
| Tts.SynthesisOutcomeCacheIndependent | voice-assistant/src/tts/tts_engine.py:65-134 | The outcome depends on the cache only through whether the backend is buildable. |
| Tts.OutputPathsDistinct | voice-assistant/src/tts/tts_engine.py:163-166 | Backends with different names that contain no underscore get different output files in one `compare` run. |
| Tts.CompareRunKeys | voice-assistant/src/tts/tts_engine.py:162-182 | The names `compare` answers for are exactly the names it walked. |
| Tts.CompareRunCache | voice-assistant/src/tts/tts_engine.py:162-173 | The cache `compare` leaves is the one the resolved names' lookups leave. |
| Tts.CompareRunEntry | voice-assistant/src/tts/tts_engine.py:162-182 | Each answer is what that name alone gets from the starting cache: the result, or None on failure. |
| Tts.CompareRunSpec | voice-assistant/src/tts/tts_engine.py:155-184 | The keys are exactly the listed names. Each value is that name's synthesis result, or None instead of aborting. The cache stays valid and grows by the lookups. |
| Tts.PassSuccesses | voice-assistant/src/tts/tts_engine.py:217-224 | At most `k` of the first `k` passes over one text answer without raising. |
| Tts.Successes | voice-assistant/src/tts/tts_engine.py:216-224 | At most one success per text and pass: the successful calls number at most the texts times the passes. |
| Tts.MixedPasses | voice-assistant/src/tts/tts_engine.py:216-224 | Each pass is its own call: a text whose first pass raises and second answers gets one timing and one error. |
| Tts.BenchmarkEntryCounts | voice-assistant/src/tts/tts_engine.py:206-235 | For a backend listed once, an unbuildable engine gets no timings and no errors. A built one has timings plus errors equal to texts times iterations. `mean_ms` is set exactly when a timing was recorded. |
| Tts.BenchmarkEntryStep | voice-assistant/src/tts/tts_engine.py:208-224 | Listing a built backend once more adds one run of all its passes to its entry. |
| Tts.CountRunKeys | voice-assistant/src/tts/tts_engine.py:206-224 | The counting loop never adds or removes an entry. |
| Tts.CountRunCache | voice-assistant/src/tts/tts_engine.py:208-214 | The cache the counting loop leaves is the one its lookups leave. |
| Tts.CountRunEntry | voice-assistant/src/tts/tts_engine.py:206-224 | Starting from zero entries, each backend's counts are its entry for the number of times it is listed. |
| Tts.CountRunSpec | voice-assistant/src/tts/tts_engine.py:205-224 | There is exactly one entry per listed backend, each the counts for its multiplicity and buildability. The cache stays valid and grows by the lookups. |
| Tts.WithMeans | voice-assistant/src/tts/tts_engine.py:227-235 | The statistics pass keeps the keys and sets `mean_ms` on exactly the entries with a timing. |
| Tts.RunPasses | voice-assistant/src/tts/tts_engine.py:216-224 | The two inner loops make one call per text and pass, and add one timing for each call that answers and one error for each call that raises. |
| Tts.TtsEngine.constructor | voice-assistant/src/tts/tts_engine.py:46-63 | The default backend and the device are stored, and the cache is empty. |
| Tts.TtsEngine.GetEngine | voice-assistant/src/tts/tts_engine.py:65-83 | The result and the new cache are those of `_get_engine`. |
| Tts.TtsEngine.Synthesize | voice-assistant/src/tts/tts_engine.py:85-134 | On `backend or default_backend`, gives the synthesis outcome and the cache after that backend's lookup. |
| Tts.TtsEngine.Compare | voice-assistant/src/tts/tts_engine.py:136-184 | Raises exactly when an output directory is given and creating it fails, with that error and the cache untouched. Otherwise one entry per requested backend, by default mms, cartesia, indic. Each is the synthesis result from the starting cache at `output_dir/"{backend}_{language}.wav"`, or None. |
| Tts.TtsEngine.CompareLoop | voice-assistant/src/tts/tts_engine.py:162-182 | The per-backend loop leaves the answers and the cache of the compare run over the listed names. |
| Tts.TtsEngine.CountRuns | voice-assistant/src/tts/tts_engine.py:206-224 | The counting loop leaves the counts and the cache of the counting run. |
| Tts.TtsEngine.Benchmark | voice-assistant/src/tts/tts_engine.py:186-237 | One entry per requested backend, each the benchmark entry for its multiplicity and buildability; the cache grows by the lookups. |
| Edge.ServerUrl | voice-assistant/src/edge/client.py:33 | `rstrip("/")` gives the longest prefix not ending in '/', and only '/' characters are cut. A URL is kept exactly when it does not end in '/'. |
| Edge.WsUrl | voice-assistant/src/edge/client.py:34 | A non-empty `ws_url` is kept verbatim. Otherwise the derived URL ends in "/ws". |
| Edge.WsUrlOfHttp | voice-assistant/src/edge/client.py:34 | An "http" + rest URL, with no further "http" in the rest, derives "ws" + rest + "/ws". |
| Edge.DefaultWsUrl | voice-assistant/src/edge/client.py:23-34 | Without `ws_url`, the default server URL derives "ws://localhost:8000/ws". |
| Edge.DefaultServerUrlKept | voice-assistant/src/edge/client.py:23-33 | "http://localhost:8000" is kept as is as the base URL. |
| Edge.HttpsUrl | voice-assistant/src/edge/client.py:34 | "https://h" derives "wss://h/ws". |
| Edge.TrailingSlashUrl | voice-assistant/src/edge/client.py:33-34 | "http://h/" gives the base "http://h" and the WebSocket URL "ws://h//ws". |
| Edge.EdgeClient.constructor | voice-assistant/src/edge/client.py:21-36 | The two URLs are the derived ones, and there is no connection or session. |
| Audio.StreakSpec | voice-assistant/src/edge/audio_handler.py:141-147 | The silence counter after m chunks counts exactly the trailing quiet chunks: they are all quiet, and the chunk before them is not. |
| Audio.StopsAtSpec | voice-assistant/src/edge/audio_handler.py:142-145 | A silence stop leaves the last `chunks_for_silence` chunks all quiet. A loud chunk never stops the loop. |
| Audio.AudioHandler.constructor | voice-assistant/src/edge/audio_handler.py:21-42 | The four settings are stored, with no stream and not recording. |
| Audio.AudioHandler.RecordUntilSilence | voice-assistant/src/edge/audio_handler.py:125-149 | Fails exactly when `max_chunks` ≤ 0, with NumPy's empty-concatenation error. Otherwise it keeps between 1 and `max_chunks` chunks: the first chunks of the stream in order, up to and including the one that ends the loop. There is no silence stop before the last chunk, and stopping short of `max_chunks` means a silence stop. |

## Left out

- The engines are functions given as parameters. This covers speech
  recognition, IndicTrans2 tokenisation and generation, Qwen tokenisation,
  chat templating and generation, and the MMS, Cartesia and Indic TTS
  backends. The same holds for library constructors, `load_model` failures
  and CUDA availability. Their internals are outside the modelled code.
- Timings and floating point are not modelled: every `*_time_ms` field,
  `generation_time_ms`, `duration_ms`, `perf_counter`, and `benchmark`'s
  mean, std, min and max. Only whether `mean_ms` is set is modelled.
  `intent_confidence` and the NLU confidences are exact `real`s.
- `Audio.AudioHandler.RecordUntilSilence`: it is given `chunks_for_silence`
  and `max_chunks` rather than computing them from the durations with
  `int(...)`. It takes the RMS test as a given predicate on chunks, and the
  microphone as a function from chunk position to chunk. Opening the input
  stream and `squeeze()` are not modelled.
- The audio device I/O of `AudioHandler` is not modelled: `record`, `play`,
  `play_file`, `save_audio`, `list_devices` and `preprocess`.
- The networked methods of `EdgeClient` (`connect_websocket`,
  `disconnect_websocket`, `send_audio_stream`, `receive_response`,
  `process_audio`, `health_check`, `close`) and `SyncEdgeClient` are
  asynchronous network I/O, so they are not modelled.
- The regular expressions of `_extract_entities` are not modelled. The time
  and number match lists are inputs (`Nlu.Found`); only the ordering and
  deduplication logic is modelled.
- The LangGraph runtime is represented by its conditional-edge table and a
  "graph available" flag. The error texts for a missing edge or node
  (`NoRouteMessage`, `NoNodeMessage`) are this model's own. LangGraph's
  exception types and messages are not modelled.
- `agents/orchestrator.py`'s `agents` registry and `config` are stored but
  never used by the modelled code.
- The module singletons `get_llm`, `get_translator`, `chat`, `generate`,
  `translate`, `ml_to_en`, `en_to_ml`, `tts` and `compare_tts` are hidden
  global state around the modelled classes, so they are not modelled. The
  same goes for the raw `QwenLLM.generate` call, which is only a call into
  the engine.
- `Qwen.QwenLlm.Chat`: the sampling arguments `temperature` (0.7) and
  `top_p` (0.9) are not part of the generation request, because sampling
  happens inside the engine. Every modelled caller uses the defaults.
- `IndicTranslator(load_on_init=True)` is not modelled as a constructor.
  It is `LoadModels(None, env)` right after construction.
- `PipelineIntent.IntentDetector.Detect` does not model an exception thrown
  by the detector. The pipeline builds its detector with `use_llm=False`, so
  a detection there can only take the keyword path and cannot raise. The
  pipeline's stage 3 is therefore modelled as never raising.
- The `print` output of `load_components` and all logging are not modelled.
- `Tts.BenchmarkEntry`: the engine's answer is a function of the request and
  the pass over that text, so passes may differ. A backend listed more than
  once in `backends` is asked the same questions on each listing, so the
  model gives every listing the same answers.
- `Tts.OutputPath`: the output file is the directory text, "/" and the file
  name joined as strings. `pathlib.Path` normalisation is not modelled, so a
  directory given as "d/" gives "d//mms_ml.wav" here rather than
  "d/mms_ml.wav"; `OutputPathsDistinct` holds either way.
- `Tts.TtsEngine.Compare`: creating the output directory is an outcome given
  as a parameter (`mkdirFailure`); the file system itself is not modelled.
- `Text.Lower` lowercases ASCII letters only. Unicode case mapping is not
  modelled, and Malayalam text has no case.
- `Qwen.QwenLlm.LoadModel` does not keep the tokenizer apart from the model.
  Both are set together on success, and a tokenizer that loads before a
  failing model load is not modelled.
