/** The end-to-end voice pipeline (pipeline/orchestrator.py): speech or text in,
    Malayalam to English, keyword intent, the chat model, English back to
    Malayalam, speech out. The engines are constructed lazily, once each, and
    every stage error ends the call in one failed `PipelineResult`. ASR
    transcription, translation, generation and synthesis are oracles in `Env`. */
module Pipeline {
  import opened Outcomes
  import Qwen
  import Text
  import Translation
  import Tts
  import PipelineIntent

  /** The system prompt `_load_llm` gives the chat model. */
  const VoiceSystemPrompt: string :=
    "You are a helpful voice assistant that speaks Malayalam. You provide concise, friendly responses "
    + "suitable for spoken conversation. Keep responses brief (1-3 sentences) and natural. Respond in "
    + "English - your response will be translated to Malayalam.\n\nYou can help with:\n"
    + "- Answering questions\n- Providing information\n- Casual conversation\n- Simple tasks\n\n"
    + "Be conversational and helpful."

  /** The directions `_load_translator` preloads, in order. */
  const PreloadedDirections: seq<string> := ["indic-en", "en-indic"]

  /** The chat model's default memory. */
  const MemoryMessages: int := 10

  /** The ValueError of stage 1 when there is no input. */
  const MissingInputMessage: string := "Either audio_path or text_input must be provided"

  /** The ValueError of `_load_asr` for an engine other than Whisper. */
  function UnknownAsrMessage(engine: string): string {
    "Unknown ASR engine: " + engine
  }

  /** A Python truth test on an optional string: present and non-empty. */
  predicate Given(s: Option<string>) {
    s.Some? && s.value != ""
  }

  /** `PipelineResult` without its timing fields. */
  datatype PipelineResult = PipelineResult(
    audioInput: Option<string>,
    malayalamText: string,
    englishText: string,
    intentType: string,
    intentDescription: string,
    intentConfidence: real,
    intentEntities: map<string, string>,
    englishResponse: string,
    malayalamResponse: string,
    audioOutput: Option<Tts.Audio>,
    success: bool,
    error: Option<string>)

  /** `PipelineResult(audio_input=audio_path)`: every other field at its default. */
  function Initial(audioPath: Option<string>): PipelineResult {
    PipelineResult(audioPath, "", "", "", "", 0.0, map[], "", "", None, true, None)
  }

  /** The `except` branch of `process`. */
  function Failed(r: PipelineResult, e: string): PipelineResult {
    r.(success := false, error := Some(e))
  }

  /** The four intent fields set from a detected intent. */
  function WithIntent(r: PipelineResult, i: PipelineIntent.Intent): PipelineResult {
    r.(intentType := PipelineIntent.Value(i.kind), intentDescription := i.description,
       intentConfidence := i.confidence, intentEntities := i.entities)
  }

  /** The constructor arguments the pipeline keeps, and the system prompt
      `_load_llm` installs (always `VoiceSystemPrompt` for a constructed
      pipeline). */
  datatype Config = Config(asrEngine: string, asrModelSize: string, llmModelSize: string,
                           ttsEngine: string, device: string, detectIntent: bool, systemPrompt: string)

  /** The Whisper wrapper, by the arguments it was built with (its model is not modelled). */
  datatype AsrHandle = AsrHandle(modelSize: string, device: string)

  /** What the engine libraries do: whether Whisper's `load_model` raises, the
      transcription of an audio file, the translator's loading and model, the
      chat model's loading and generation, the TTS constructors that raise and
      the synthesis. */
  datatype Env = Env(
    asrLoadFailure: Option<string>,
    transcribe: string -> Result<string>,
    translatorEnv: Translation.LoadEnv,
    translate: Translation.TranslationRequest -> Result<string>,
    llmEnv: Qwen.LoadEnv,
    generate: Qwen.GenerationRequest -> Result<Qwen.Generation>,
    ttsFailures: map<string, string>,
    synth: Tts.SynthesisRequest -> Result<Tts.Audio>)

  /** The engine handles as values: absent until loaded, then the state of
      each engine; the detector has none of its own (it never uses its LLM). */
  datatype Components = Components(
    asr: Option<AsrHandle>,
    translator: Option<Translation.LoadState>,
    llm: Option<Qwen.LlmState>,
    tts: Option<map<string, Tts.BackendEngine>>,
    detector: bool)

  const NoComponents := Components(None, None, None, None, false)

  // ------------------------------------------------------------------ loading

  /** `_load_asr`: nothing once a handle exists; for Whisper the handle is
      stored before its model loads, so a failing load still leaves it. */
  function LoadAsrStep(cfg: Config, c: Components, env: Env): (Components, Option<string>) {
    if c.asr.Some? then (c, None)
    else if cfg.asrEngine == "whisper" then (c.(asr := Some(AsrHandle(cfg.asrModelSize, cfg.device))), env.asrLoadFailure)
    else (c, Some(UnknownAsrMessage(cfg.asrEngine)))
  }

  /** `_load_translator`: a new translator, then both directions preloaded. */
  function LoadTranslatorStep(cfg: Config, c: Components, env: Env): (Components, Option<string>) {
    if c.translator.Some? then (c, None)
    else
      var (st, err) := Translation.LoadAll(Translation.LoadState(map[], cfg.device), PreloadedDirections, env.translatorEnv);
      (c.(translator := Some(st)), err)
  }

  /** `_load_llm`: a new chat wrapper with the voice prompt, then its model. */
  function LoadLlmStep(cfg: Config, c: Components, env: Env): (Components, Option<string>) {
    if c.llm.Some? then (c, None)
    else
      var (err, st) := Qwen.LoadOutcome(Qwen.LlmState(cfg.device, false, []), cfg.llmModelSize, env.llmEnv);
      (c.(llm := Some(st)), err)
  }

  /** `_load_tts`: an engine with an empty cache. */
  function LoadTtsStep(c: Components): Components {
    if c.tts.Some? then c else c.(tts := Some(map[]))
  }

  /** `load_components`: ASR, translator, LLM, TTS, then the detector when
      intent detection is on; the first error stops the rest. */
  function LoadComponentsOutcome(cfg: Config, c: Components, env: Env): (Components, Option<string>) {
    var (c1, e1) := LoadAsrStep(cfg, c, env);
    if e1.Some? then (c1, e1)
    else
      var (c2, e2) := LoadTranslatorStep(cfg, c1, env);
      if e2.Some? then (c2, e2)
      else
        var (c3, e3) := LoadLlmStep(cfg, c2, env);
        if e3.Some? then (c3, e3)
        else
          var c4 := LoadTtsStep(c3);
          (if cfg.detectIntent then c4.(detector := true) else c4, None)
  }

  /** A successful `load_components` leaves every engine present, a freshly
      loaded chat model loaded, and the detector present exactly when it was
      or intent detection is on; a failed one never creates the detector. An
      unknown ASR engine fails first, with nothing loaded. */
  lemma LoadComponentsSpec(cfg: Config, c: Components, env: Env)
    ensures var (after, err) := LoadComponentsOutcome(cfg, c, env);
      && (err.None? ==> after.asr.Some? && after.translator.Some? && after.llm.Some? && after.tts.Some?)
      && (err.None? && c.llm.None? ==> after.llm.value.modelLoaded)
      && (err.None? ==> (after.detector <==> c.detector || cfg.detectIntent))
      && (err.Some? ==> after.detector == c.detector && after.tts == c.tts)
      && (c.asr.None? && cfg.asrEngine != "whisper" ==> after == c && err == Some(UnknownAsrMessage(cfg.asrEngine)))
  {
    var (c1, e1) := LoadAsrStep(cfg, c, env);
    if e1.None? {
      var (c2, e2) := LoadTranslatorStep(cfg, c1, env);
      if e2.None? {
        var (c3, e3) := LoadLlmStep(cfg, c2, env);
        if e3.None? && c.llm.None? {
          Qwen.LoadOutcomeSpec(Qwen.LlmState(cfg.device, false, []), cfg.llmModelSize, env.llmEnv);
        }
      }
    }
  }

  /** Every loader is a no-op once its handle exists, so loading again after
      a successful `load_components` changes nothing and cannot fail, whatever
      the engines would do now. */
  lemma LoadComponentsOnce(cfg: Config, c: Components, env: Env, later: Env)
    requires LoadComponentsOutcome(cfg, c, env).1.None?
    ensures var after := LoadComponentsOutcome(cfg, c, env).0;
      LoadComponentsOutcome(cfg, after, later) == (after, None)
  {
    LoadComponentsSpec(cfg, c, env);
  }

  // ------------------------------------------------------------------ stages

  /** Stage 1: the transcription of the audio when an audio path is given,
      else the text input when there is one, else the missing-input error. */
  function InputStage(cfg: Config, c: Components, audioPath: Option<string>, textInput: Option<string>,
                      env: Env): (Result<string>, Components)
  {
    if Given(audioPath) then
      var (c1, err) := LoadAsrStep(cfg, c, env);
      if err.Some? then (Err(err.value), c1) else (env.transcribe(audioPath.value), c1)
    else if Given(textInput) then (Ok(textInput.value), c)
    else (Err(MissingInputMessage), c)
  }

  /** A translation through the pipeline's translator, loading it first. */
  function TranslateStage(cfg: Config, c: Components, text: string, sourceLang: string, targetLang: string,
                          env: Env): (Result<string>, Components)
  {
    var (c1, err) := LoadTranslatorStep(cfg, c, env);
    if err.Some? then (Err(err.value), c1)
    else
      var (r, st) := Translation.TranslateOutcome(c1.translator.value, text, sourceLang, targetLang, 256,
                                                  env.translatorEnv, env.translate);
      (r, c1.(translator := Some(st)))
  }

  /** Stage 2: Malayalam input is translated to English, any other input is
      taken as English. */
  function EnglishStage(cfg: Config, c: Components, text: string, inputLanguage: string, env: Env): (Result<string>, Components) {
    if inputLanguage == "ml" then TranslateStage(cfg, c, text, "ml", "en", env) else (Ok(text), c)
  }

  /** Stage 3: the four intent fields, set only when detection is on and a
      detector was loaded beforehand. */
  function IntentStage(cfg: Config, c: Components, r: PipelineResult): PipelineResult {
    if cfg.detectIntent && c.detector then
      WithIntent(r, PipelineIntent.OfflineDetection(r.malayalamText, Some(r.englishText)))
    else r
  }

  /** Stage 4: a remembered chat turn on the English text. */
  function LlmStage(cfg: Config, c: Components, english: string, env: Env): (Result<string>, Components) {
    var (c1, err) := LoadLlmStep(cfg, c, env);
    if err.Some? then (Err(err.value), c1)
    else
      var (r, st) := Qwen.ChatOutcome(c1.llm.value, cfg.llmModelSize, cfg.systemPrompt, MemoryMessages, english,
                                      env.generate, env.llmEnv, 256, true);
      (if r.Ok? then Ok(r.value.content) else Err(r.message), c1.(llm := Some(st)))
  }

  /** Stage 6: speech for the Malayalam reply with the configured backend. */
  function SpeechStage(cfg: Config, c: Components, text: string, outputPath: Option<string>, env: Env): (Result<Tts.Audio>, Components) {
    var engines := if c.tts.Some? then c.tts.value else map[];
    var backend := Tts.ChosenBackend(None, cfg.ttsEngine);
    var r := Tts.SynthesisOutcome(engines, backend, text, "ml", outputPath, env.ttsFailures, env.synth);
    (if r.Ok? then Ok(r.value.audio) else Err(r.message), c.(tts := Some(Tts.AfterLookup(engines, backend, env.ttsFailures))))
  }

  /** A `process` call between two stages: the result so far, the handles,
      and how many of the six stages have completed. The call goes on while
      `success` holds, which it does from the start until a stage raises. */
  datatype Run = Run(result: PipelineResult, parts: Components, done: nat)

  /** A stage that raised: the error is recorded and the later stages are skipped. */
  function Abort(run: Run, e: string, parts: Components): Run {
    Run(Failed(run.result, e), parts, run.done)
  }

  /** One stage's bookkeeping: a run that already failed is passed on as it
      is; otherwise the stage completes, counting one more, or records its error. */
  predicate Advances(run: Run, next: Run) {
    if !run.result.success then next == run
    else if next.result.success then next.done == run.done + 1 && next.result.error == run.result.error
    else next.done == run.done && next.result.error.Some?
  }

  /** Stage 1: fills `malayalam_text` from the transcription or the text input. */
  function ReadStep(cfg: Config, audioPath: Option<string>, textInput: Option<string>, env: Env, run: Run): (next: Run)
  {
    if !run.result.success then run
    else
      var (input, parts) := InputStage(cfg, run.parts, audioPath, textInput, env);
      if input.Err? then Abort(run, input.message, parts)
      else Run(run.result.(malayalamText := input.value), parts, run.done + 1)
  }

  /** Stage 1 changes `malayalam_text` and the ASR handle only; it completes
      with the transcription of a given audio path, else with a given text
      input; with neither, or with an unknown ASR engine, it raises at once. */
  lemma ReadStepSpec(cfg: Config, audioPath: Option<string>, textInput: Option<string>, env: Env, run: Run)
    ensures var next := ReadStep(cfg, audioPath, textInput, env, run);
      && Advances(run, next)
      && next.result == run.result.(malayalamText := next.result.malayalamText,
                                    success := next.result.success, error := next.result.error)
      && next.parts == run.parts.(asr := next.parts.asr)
      && (run.result.success && next.result.success ==>
            && (Given(audioPath) ==> env.transcribe(audioPath.value) == Ok(next.result.malayalamText))
            && (!Given(audioPath) ==> Given(textInput) && next.result.malayalamText == textInput.value))
      && (run.result.success && !Given(audioPath) && Given(textInput) ==> next.result.success)
      && (run.result.success && !Given(audioPath) && !Given(textInput) ==>
            next == Abort(run, MissingInputMessage, run.parts))
      && (run.result.success && Given(audioPath) && run.parts.asr.None? && cfg.asrEngine != "whisper" ==>
            next == Abort(run, UnknownAsrMessage(cfg.asrEngine), run.parts))
  {
  }

  /** The request `ml_to_en` or `en_to_ml` hands the model for `text`. */
  function TranslationRequestFor(text: string, sourceLang: string, targetLang: string): Translation.TranslationRequest {
    Translation.TranslationRequest(Translation.Direction(sourceLang), Translation.Tagged(Translation.Code(sourceLang), text),
                                   Translation.Code(targetLang), 256)
  }

  /** A translation through the pipeline succeeds only with the model's
      output for the tagged text, a leading target tag stripped, and it
      changes no handle but the translator's. */
  lemma TranslateStageSpec(cfg: Config, c: Components, text: string, sourceLang: string, targetLang: string, env: Env)
    ensures var (r, after) := TranslateStage(cfg, c, text, sourceLang, targetLang, env);
      var request := TranslationRequestFor(text, sourceLang, targetLang);
      && (r.Ok? ==> env.translate(request).Ok?
                    && r.value == Translation.StripTag(env.translate(request).value, Translation.Code(targetLang)))
      && after == c.(translator := after.translator) && after.translator.Some?
  {
    var (c1, err) := LoadTranslatorStep(cfg, c, env);
    if err.None? {
      Translation.TranslateOutcomeSpec(c1.translator.value, text, sourceLang, targetLang, 256, env.translatorEnv, env.translate);
    }
  }

  /** Stage 2: fills `english_text`, by translation only for Malayalam input. */
  function EnglishStep(cfg: Config, inputLanguage: string, env: Env, run: Run): (next: Run)
  {
    if !run.result.success then run
    else
      var (english, parts) := EnglishStage(cfg, run.parts, run.result.malayalamText, inputLanguage, env);
      if english.Err? then Abort(run, english.message, parts)
      else Run(run.result.(englishText := english.value), parts, run.done + 1)
  }

  /** Stage 2 changes `english_text` and the translator only, and the
      translator only for Malayalam input; it completes with the Malayalam
      text itself for other input, and with the model's translation of the
      tagged Malayalam text for Malayalam input. */
  lemma EnglishStepSpec(cfg: Config, inputLanguage: string, env: Env, run: Run)
    ensures var next := EnglishStep(cfg, inputLanguage, env, run);
      && Advances(run, next)
      && next.result == run.result.(englishText := next.result.englishText,
                                    success := next.result.success, error := next.result.error)
      && next.parts == run.parts.(translator := next.parts.translator)
      && (inputLanguage != "ml" ==> next.parts == run.parts)
      && (run.result.success && inputLanguage != "ml" ==>
            next.result.success && next.result.englishText == run.result.malayalamText)
      && (run.result.success && next.result.success && inputLanguage == "ml" ==>
            && env.translate(TranslationRequestFor(run.result.malayalamText, "ml", "en")).Ok?
            && next.result.englishText == Translation.StripTag(env.translate(TranslationRequestFor(run.result.malayalamText, "ml", "en")).value,
                                                               Translation.Code("en")))
  {
    if run.result.success && inputLanguage == "ml" {
      TranslateStageSpec(cfg, run.parts, run.result.malayalamText, "ml", "en", env);
    }
  }

  /** Stage 3: the intent fields, from a detector loaded beforehand. */
  function IntentStep(cfg: Config, run: Run): (next: Run)
  {
    if !run.result.success then run
    else Run(IntentStage(cfg, run.parts, run.result), run.parts, run.done + 1)
  }

  /** Stage 3 never raises and changes no handle; it sets the intent fields
      from the offline detection of the Malayalam and English texts exactly
      when detection is on and the detector was loaded, and otherwise leaves
      the result as it is. */
  lemma IntentStepSpec(cfg: Config, run: Run)
    ensures var next := IntentStep(cfg, run);
      && Advances(run, next)
      && next.parts == run.parts
      && (run.result.success ==> next.result.success)
      && (!(cfg.detectIntent && run.parts.detector) || !run.result.success ==> next.result == run.result)
      && (cfg.detectIntent && run.parts.detector && run.result.success ==>
            next.result == WithIntent(run.result, PipelineIntent.OfflineDetection(run.result.malayalamText, Some(run.result.englishText))))
  {
  }

  /** The history the chat model holds, empty before it exists. */
  function HistoryOf(c: Components): seq<Qwen.Message> {
    if c.llm.Some? then c.llm.value.history else []
  }

  /** The engine call of the chat stage for `english`, over the history in `c`. */
  function ReplyRequest(cfg: Config, c: Components, english: string): Qwen.GenerationRequest {
    Qwen.GenerationRequest(Qwen.Prompt(cfg.systemPrompt, HistoryOf(c), MemoryMessages, english), 256)
  }

  /** Stage 4: fills `english_response` with the chat reply, remembering the turn. */
  function ReplyStep(cfg: Config, env: Env, run: Run): (next: Run)
  {
    if !run.result.success then run
    else
      var (reply, parts) := LlmStage(cfg, run.parts, run.result.englishText, env);
      if reply.Err? then Abort(run, reply.message, parts)
      else Run(run.result.(englishResponse := reply.value), parts, run.done + 1)
  }

  /** Stage 4 changes `english_response` and the chat model only; it
      completes with the stripped engine reply to the voice prompt over the
      remembered history, and the history then gains that turn, trimmed to
      the memory. */
  lemma ReplyStepSpec(cfg: Config, env: Env, run: Run)
    ensures var next := ReplyStep(cfg, env, run);
      && Advances(run, next)
      && next.result == run.result.(englishResponse := next.result.englishResponse,
                                    success := next.result.success, error := next.result.error)
      && next.parts == run.parts.(llm := next.parts.llm)
      && (run.result.success && next.result.success ==>
            && env.generate(ReplyRequest(cfg, run.parts, run.result.englishText)).Ok?
            && next.result.englishResponse == Text.Strip(env.generate(ReplyRequest(cfg, run.parts, run.result.englishText)).value.decoded)
            && HistoryOf(next.parts)
               == Qwen.Trimmed(HistoryOf(run.parts) + [Qwen.Message(Qwen.User, run.result.englishText),
                                                      Qwen.Message(Qwen.Assistant, next.result.englishResponse)],
                               MemoryMessages))
  {
  }

  /** Stage 5: fills `malayalam_response` with the translated reply. */
  function BackStep(cfg: Config, env: Env, run: Run): (next: Run)
  {
    if !run.result.success then run
    else
      var (back, parts) := TranslateStage(cfg, run.parts, run.result.englishResponse, "en", "ml", env);
      if back.Err? then Abort(run, back.message, parts)
      else Run(run.result.(malayalamResponse := back.value), parts, run.done + 1)
  }

  /** Stage 5 changes `malayalam_response` and the translator only; it
      completes with the model's translation of the tagged English reply. */
  lemma BackStepSpec(cfg: Config, env: Env, run: Run)
    ensures var next := BackStep(cfg, env, run);
      && Advances(run, next)
      && next.result == run.result.(malayalamResponse := next.result.malayalamResponse,
                                    success := next.result.success, error := next.result.error)
      && next.parts == run.parts.(translator := next.parts.translator)
      && (run.result.success && next.result.success ==>
            && env.translate(TranslationRequestFor(run.result.englishResponse, "en", "ml")).Ok?
            && next.result.malayalamResponse == Translation.StripTag(env.translate(TranslationRequestFor(run.result.englishResponse, "en", "ml")).value,
                                                                     Translation.Code("ml")))
  {
    if run.result.success {
      TranslateStageSpec(cfg, run.parts, run.result.englishResponse, "en", "ml", env);
    }
  }

  /** Stage 6: fills `audio_output` with the synthesised Malayalam reply. */
  function SpeechStep(cfg: Config, outputAudioPath: Option<string>, env: Env, run: Run): (next: Run)
  {
    if !run.result.success then run
    else
      var (audio, parts) := SpeechStage(cfg, run.parts, run.result.malayalamResponse, outputAudioPath, env);
      if audio.Err? then Abort(run, audio.message, parts)
      else Run(run.result.(audioOutput := Some(audio.value)), parts, run.done + 1)
  }

  /** Stage 6 changes `audio_output` and the TTS engine only; it completes
      with the audio the configured backend synthesises for the Malayalam
      reply. */
  lemma SpeechStepSpec(cfg: Config, outputAudioPath: Option<string>, env: Env, run: Run)
    ensures var next := SpeechStep(cfg, outputAudioPath, env, run);
      && Advances(run, next)
      && next.result == run.result.(audioOutput := next.result.audioOutput,
                                    success := next.result.success, error := next.result.error)
      && next.parts == run.parts.(tts := next.parts.tts)
      && (run.result.success && next.result.success ==>
            && next.result.audioOutput.Some?
            && env.synth(Tts.SynthesisRequest(Tts.ChosenBackend(None, cfg.ttsEngine), run.result.malayalamResponse, "ml",
                                              outputAudioPath)) == Ok(next.result.audioOutput.value))
  {
  }

  /** The arguments of one `process` call. */
  datatype Call = Call(audioPath: Option<string>, textInput: Option<string>, inputLanguage: string,
                       outputAudioPath: Option<string>)

  /** The run after the first `k` of the six stages, in order from the
      default result; from the sixth on nothing changes. */
  function RunAfter(k: nat, cfg: Config, c: Components, call: Call, env: Env): Run
    decreases k
  {
    if k == 0 then Run(Initial(call.audioPath), c, 0)
    else
      var prev := RunAfter(k - 1, cfg, c, call, env);
      if k == 1 then ReadStep(cfg, call.audioPath, call.textInput, env, prev)
      else if k == 2 then EnglishStep(cfg, call.inputLanguage, env, prev)
      else if k == 3 then IntentStep(cfg, prev)
      else if k == 4 then ReplyStep(cfg, env, prev)
      else if k == 5 then BackStep(cfg, env, prev)
      else if k == 6 then SpeechStep(cfg, call.outputAudioPath, env, prev)
      else prev
  }

  /** What `process` returns and leaves: the six stages in order from the
      default result. */
  function ProcessOutcome(cfg: Config, c: Components, call: Call, env: Env): Run {
    RunAfter(6, cfg, c, call, env)
  }

  /** `ProcessOutcome` stage by stage. */
  lemma ProcessOutcomeSteps(cfg: Config, c: Components, call: Call, env: Env)
    ensures ProcessOutcome(cfg, c, call, env)
            == SpeechStep(cfg, call.outputAudioPath, env, BackStep(cfg, env, ReplyStep(cfg, env, IntentStep(cfg,
                 EnglishStep(cfg, call.inputLanguage, env, ReadStep(cfg, call.audioPath, call.textInput, env,
                                                                    Run(Initial(call.audioPath), c, 0)))))))
  {
  }

  /** Without an audio path or a text input nothing runs and nothing is
      loaded; the call fails with the missing-input error. */
  lemma ProcessNeedsInput(cfg: Config, c: Components, call: Call, env: Env)
    requires !Given(call.audioPath) && !Given(call.textInput)
    ensures ProcessOutcome(cfg, c, call, env) == Run(Failed(Initial(call.audioPath), MissingInputMessage), c, 0)
  {
  }

  /** With an audio path, no speech recogniser yet and an engine other than
      whisper, nothing runs and nothing is loaded; the call fails with the
      unknown-engine error. */
  lemma ProcessUnknownAsr(cfg: Config, c: Components, call: Call, env: Env)
    requires Given(call.audioPath) && c.asr.None? && cfg.asrEngine != "whisper"
    ensures ProcessOutcome(cfg, c, call, env) == Run(Failed(Initial(call.audioPath), UnknownAsrMessage(cfg.asrEngine)), c, 0)
  {
  }

  /** The bookkeeping after `k` stages: the input path is echoed; `success`
      holds exactly while no error is recorded, and then every stage so far
      has completed; the fields of the stages not completed keep their
      defaults. */
  ghost predicate Settled(k: nat, audioPath: Option<string>, run: Run) {
    && run.result.audioInput == audioPath
    && run.done <= k && run.done <= 6
    && (run.result.success <==> run.result.error.None?)
    && (run.result.success ==> run.done == k || (k > 6 && run.done == 6))
    && (run.done < 1 ==> run.result.malayalamText == "")
    && (run.done < 2 ==> run.result.englishText == "")
    && (run.done < 3 ==> run.result.intentType == "" && run.result.intentDescription == ""
                         && run.result.intentConfidence == 0.0 && run.result.intentEntities == map[])
    && (run.done < 4 ==> run.result.englishResponse == "")
    && (run.done < 5 ==> run.result.malayalamResponse == "")
    && (run.done < 6 ==> run.result.audioOutput == None)
  }

  /** Each stage keeps the bookkeeping of `Settled`, one stage further on. */
  lemma SettledRead(cfg: Config, call: Call, env: Env, prev: Run)
    requires Settled(0, call.audioPath, prev)
    ensures Settled(1, call.audioPath, ReadStep(cfg, call.audioPath, call.textInput, env, prev))
  {
    ReadStepSpec(cfg, call.audioPath, call.textInput, env, prev);
  }

  lemma SettledEnglish(cfg: Config, call: Call, env: Env, prev: Run)
    requires Settled(1, call.audioPath, prev)
    ensures Settled(2, call.audioPath, EnglishStep(cfg, call.inputLanguage, env, prev))
  {
    EnglishStepSpec(cfg, call.inputLanguage, env, prev);
  }

  lemma SettledIntent(cfg: Config, call: Call, prev: Run)
    requires Settled(2, call.audioPath, prev)
    ensures Settled(3, call.audioPath, IntentStep(cfg, prev))
  {
    IntentStepSpec(cfg, prev);
  }

  lemma SettledReply(cfg: Config, call: Call, env: Env, prev: Run)
    requires Settled(3, call.audioPath, prev)
    ensures Settled(4, call.audioPath, ReplyStep(cfg, env, prev))
  {
    ReplyStepSpec(cfg, env, prev);
  }

  lemma SettledBack(cfg: Config, call: Call, env: Env, prev: Run)
    requires Settled(4, call.audioPath, prev)
    ensures Settled(5, call.audioPath, BackStep(cfg, env, prev))
  {
    BackStepSpec(cfg, env, prev);
  }

  lemma SettledSpeech(cfg: Config, call: Call, env: Env, prev: Run)
    requires Settled(5, call.audioPath, prev)
    ensures Settled(6, call.audioPath, SpeechStep(cfg, call.outputAudioPath, env, prev))
  {
    SpeechStepSpec(cfg, call.outputAudioPath, env, prev);
  }

  lemma {:induction false} SettledAfter(k: nat, cfg: Config, c: Components, call: Call, env: Env)
    ensures Settled(k, call.audioPath, RunAfter(k, cfg, c, call, env))
  {
    if k > 0 {
      SettledAfter(k - 1, cfg, c, call, env);
      var prev := RunAfter(k - 1, cfg, c, call, env);
      if k == 1 {
        SettledRead(cfg, call, env, prev);
      } else if k == 2 {
        SettledEnglish(cfg, call, env, prev);
      } else if k == 3 {
        SettledIntent(cfg, call, prev);
      } else if k == 4 {
        SettledReply(cfg, call, env, prev);
      } else if k == 5 {
        SettledBack(cfg, call, env, prev);
      } else if k == 6 {
        SettledSpeech(cfg, call, env, prev);
      }
    }
  }

  /** What the completed stages of a run starting from `c` have recorded:
      the text each of them produced from the one before, and how the
      handles stand. */
  ghost predicate Recorded(cfg: Config, c: Components, call: Call, env: Env, run: Run) {
    var r := run.result;
    && run.parts.detector == c.detector
    && (r.success && run.done < 4 ==> run.parts.llm == c.llm)
    && (run.done >= 1 && Given(call.audioPath) ==> env.transcribe(call.audioPath.value) == Ok(r.malayalamText))
    && (run.done >= 1 && !Given(call.audioPath) ==> Given(call.textInput) && r.malayalamText == call.textInput.value)
    && (run.done >= 2 && call.inputLanguage != "ml" ==> r.englishText == r.malayalamText)
    && (run.done >= 2 && call.inputLanguage == "ml" ==>
          && env.translate(TranslationRequestFor(r.malayalamText, "ml", "en")).Ok?
          && r.englishText == Translation.StripTag(env.translate(TranslationRequestFor(r.malayalamText, "ml", "en")).value,
                                                   Translation.Code("en")))
    && (run.done >= 3 && cfg.detectIntent && c.detector ==>
          r == WithIntent(r, PipelineIntent.OfflineDetection(r.malayalamText, Some(r.englishText))))
    && (run.done >= 3 && !(cfg.detectIntent && c.detector) ==>
          r.intentType == "" && r.intentDescription == "" && r.intentConfidence == 0.0 && r.intentEntities == map[])
    && (run.done >= 4 ==>
          && env.generate(ReplyRequest(cfg, c, r.englishText)).Ok?
          && r.englishResponse == Text.Strip(env.generate(ReplyRequest(cfg, c, r.englishText)).value.decoded)
          && HistoryOf(run.parts)
             == Qwen.Trimmed(HistoryOf(c) + [Qwen.Message(Qwen.User, r.englishText),
                                             Qwen.Message(Qwen.Assistant, r.englishResponse)], MemoryMessages))
    && (run.done >= 5 ==>
          && env.translate(TranslationRequestFor(r.englishResponse, "en", "ml")).Ok?
          && r.malayalamResponse == Translation.StripTag(env.translate(TranslationRequestFor(r.englishResponse, "en", "ml")).value,
                                                         Translation.Code("ml")))
    && (run.done >= 6 ==>
          && r.audioOutput.Some?
          && env.synth(Tts.SynthesisRequest(Tts.ChosenBackend(None, cfg.ttsEngine), r.malayalamResponse, "ml",
                                            call.outputAudioPath)) == Ok(r.audioOutput.value))
  }

  /** Each stage keeps what the earlier ones recorded and records its own. */
  lemma RecordedRead(cfg: Config, c: Components, call: Call, env: Env, prev: Run)
    requires Settled(0, call.audioPath, prev) && Recorded(cfg, c, call, env, prev) && prev.parts == c
    ensures Recorded(cfg, c, call, env, ReadStep(cfg, call.audioPath, call.textInput, env, prev))
  {
    ReadStepSpec(cfg, call.audioPath, call.textInput, env, prev);
  }

  lemma RecordedEnglish(cfg: Config, c: Components, call: Call, env: Env, prev: Run)
    requires Settled(1, call.audioPath, prev) && Recorded(cfg, c, call, env, prev)
    ensures Recorded(cfg, c, call, env, EnglishStep(cfg, call.inputLanguage, env, prev))
  {
    EnglishStepSpec(cfg, call.inputLanguage, env, prev);
  }

  lemma RecordedIntent(cfg: Config, c: Components, call: Call, env: Env, prev: Run)
    requires Settled(2, call.audioPath, prev) && Recorded(cfg, c, call, env, prev)
    ensures Recorded(cfg, c, call, env, IntentStep(cfg, prev))
  {
    IntentStepSpec(cfg, prev);
  }

  lemma RecordedReply(cfg: Config, c: Components, call: Call, env: Env, prev: Run)
    requires Settled(3, call.audioPath, prev) && Recorded(cfg, c, call, env, prev)
    ensures Recorded(cfg, c, call, env, ReplyStep(cfg, env, prev))
  {
    ReplyStepSpec(cfg, env, prev);
  }

  lemma RecordedBack(cfg: Config, c: Components, call: Call, env: Env, prev: Run)
    requires Settled(4, call.audioPath, prev) && Recorded(cfg, c, call, env, prev)
    ensures Recorded(cfg, c, call, env, BackStep(cfg, env, prev))
  {
    BackStepSpec(cfg, env, prev);
  }

  lemma RecordedSpeech(cfg: Config, c: Components, call: Call, env: Env, prev: Run)
    requires Settled(5, call.audioPath, prev) && Recorded(cfg, c, call, env, prev)
    ensures Recorded(cfg, c, call, env, SpeechStep(cfg, call.outputAudioPath, env, prev))
  {
    SpeechStepSpec(cfg, call.outputAudioPath, env, prev);
  }

  lemma {:induction false} RecordedAfter(k: nat, cfg: Config, c: Components, call: Call, env: Env)
    ensures Recorded(cfg, c, call, env, RunAfter(k, cfg, c, call, env))
  {
    if k > 0 {
      RecordedAfter(k - 1, cfg, c, call, env);
      SettledAfter(k - 1, cfg, c, call, env);
      var prev := RunAfter(k - 1, cfg, c, call, env);
      if k == 1 {
        RecordedRead(cfg, c, call, env, prev);
      } else if k == 2 {
        RecordedEnglish(cfg, c, call, env, prev);
      } else if k == 3 {
        RecordedIntent(cfg, c, call, env, prev);
      } else if k == 4 {
        RecordedReply(cfg, c, call, env, prev);
      } else if k == 5 {
        RecordedBack(cfg, c, call, env, prev);
      } else if k == 6 {
        RecordedSpeech(cfg, c, call, env, prev);
      }
    }
  }

  /** After `process`, every completed stage has recorded its text. */
  lemma ProcessRecords(cfg: Config, c: Components, call: Call, env: Env)
    ensures Recorded(cfg, c, call, env, ProcessOutcome(cfg, c, call, env))
  {
    RecordedAfter(6, cfg, c, call, env);
  }

  /** `success` is false exactly when `error` is set, which is exactly when a
      stage raised; all six stages complete on success, and the fields of
      the stages a raising stage skipped keep their defaults. */
  lemma ProcessSettles(cfg: Config, c: Components, call: Call, env: Env)
    ensures Settled(6, call.audioPath, ProcessOutcome(cfg, c, call, env))
  {
    SettledAfter(6, cfg, c, call, env);
  }

  class VoiceAssistantPipeline {
    const asrEngine: string
    const asrModelSize: string
    const llmModelSize: string
    const ttsEngine: string
    const device: string
    const detectIntent: bool
    /** The prompt `_load_llm` gives the chat model. */
    const systemPrompt: string

    var asr: Option<AsrHandle>
    var translator: Translation.IndicTranslator?
    var llm: Qwen.QwenLlm?
    var tts: Tts.TtsEngine?
    var intentDetector: PipelineIntent.IntentDetector?

    function Settings(): Config {
      Config(asrEngine, asrModelSize, llmModelSize, ttsEngine, device, detectIntent, systemPrompt)
    }

    /** The handles as values. */
    function Snapshot(): Components
      reads this, translator, llm, tts
    {
      Components(asr,
                 if translator == null then None else Some(translator.State()),
                 if llm == null then None else Some(llm.State()),
                 if tts == null then None else Some(tts.engines),
                 intentDetector != null)
    }

    /** Each handle is built from the pipeline's own settings: the chat model
        with the voice prompt and the default memory, the TTS engine with the
        configured backend, and the detector without its LLM. */
    ghost predicate Valid()
      reads this, translator, llm, tts, intentDetector
    {
      && (translator != null ==> translator.Valid())
      && (llm != null ==> llm.modelSize == llmModelSize && llm.maxMemoryMessages == MemoryMessages
                          && llm.systemPrompt == systemPrompt)
      && (tts != null ==> tts.Valid() && tts.defaultBackend == ttsEngine)
      && (intentDetector != null ==> !intentDetector.useLlm && intentDetector.llm == null)
    }

    /** `VoiceAssistantPipeline(...)`: settings stored, nothing loaded. */
    constructor (asrEngine: string := "whisper", asrModelSize: string := "base", llmModelSize: string := "1.5b",
                 ttsEngine: string := "mms", device: string := "cuda", detectIntent: bool := true)
      ensures Valid() && Snapshot() == NoComponents
      ensures Settings() == Config(asrEngine, asrModelSize, llmModelSize, ttsEngine, device, detectIntent, VoiceSystemPrompt)
    {
      this.asrEngine := asrEngine;
      this.asrModelSize := asrModelSize;
      this.llmModelSize := llmModelSize;
      this.ttsEngine := ttsEngine;
      this.device := device;
      this.detectIntent := detectIntent;
      systemPrompt := VoiceSystemPrompt;
      asr := None;
      translator := null;
      llm := null;
      tts := null;
      intentDetector := null;
    }

    /** `_load_asr`. */
    method LoadAsr(env: Env) returns (err: Option<string>)
      modifies this`asr
      ensures (Snapshot(), err) == LoadAsrStep(Settings(), old(Snapshot()), env)
    {
      if asr.Some? {
        return None;
      }
      if asrEngine == "whisper" {
        asr := Some(AsrHandle(asrModelSize, device));
        return env.asrLoadFailure;
      }
      err := Some(UnknownAsrMessage(asrEngine));
    }

    /** `_load_translator`. */
    method LoadTranslator(env: Env) returns (err: Option<string>)
      requires Valid()
      modifies this`translator, translator
      ensures Valid() && translator != null
      ensures old(translator) != null ==> translator == old(translator)
      ensures old(translator) == null ==> fresh(translator)
      ensures (Snapshot(), err) == LoadTranslatorStep(Settings(), old(Snapshot()), env)
    {
      if translator != null {
        return None;
      }
      var created := new Translation.IndicTranslator(device);
      translator := created;
      err := created.LoadModels(Some(PreloadedDirections), env.translatorEnv);
    }

    /** `_load_llm`. */
    method LoadLlm(env: Env) returns (err: Option<string>)
      requires Valid()
      modifies this`llm, llm
      ensures Valid() && llm != null
      ensures old(llm) != null ==> llm == old(llm)
      ensures old(llm) == null ==> fresh(llm)
      ensures (Snapshot(), err) == LoadLlmStep(Settings(), old(Snapshot()), env)
    {
      if llm != null {
        return None;
      }
      var created := new Qwen.QwenLlm(llmModelSize, device);
      created.SetSystemPrompt(systemPrompt);
      llm := created;
      err := created.LoadModel(env.llmEnv);
    }

    /** `_load_tts`. */
    method LoadTts()
      requires Valid()
      modifies this`tts
      ensures Valid() && tts != null
      ensures old(tts) != null ==> tts == old(tts)
      ensures old(tts) == null ==> fresh(tts)
      ensures Snapshot() == LoadTtsStep(old(Snapshot()))
    {
      if tts != null {
        return;
      }
      tts := new Tts.TtsEngine(ttsEngine, device);
    }

    /** `_load_intent_detector`: a keyword-only detector, once. */
    method LoadIntentDetector()
      requires Valid()
      modifies this`intentDetector
      ensures Valid() && intentDetector != null
      ensures Snapshot() == old(Snapshot()).(detector := true)
      ensures old(intentDetector) != null ==> intentDetector == old(intentDetector)
      ensures old(intentDetector) == null ==> fresh(intentDetector)
    {
      if intentDetector != null {
        return;
      }
      intentDetector := new PipelineIntent.IntentDetector(false);
    }

    /** `load_components`. */
    method LoadComponents(env: Env) returns (err: Option<string>)
      requires Valid()
      modifies this, translator, llm, tts
      ensures Valid()
      ensures (Snapshot(), err) == LoadComponentsOutcome(Settings(), old(Snapshot()), env)
    {
      err := LoadAsr(env);
      if err.Some? {
        return;
      }
      err := LoadTranslator(env);
      if err.Some? {
        return;
      }
      err := LoadLlm(env);
      if err.Some? {
        return;
      }
      LoadTts();
      if detectIntent {
        LoadIntentDetector();
      }
    }

    /** Stage 1 of `process` on a call still going: the transcription, loading
        the ASR engine first, or else the text input. */
    method ReadStage(current: PipelineResult, ghost done: nat, audioPath: Option<string>, textInput: Option<string>,
                     env: Env)
      returns (result: PipelineResult, ghost doneAfter: nat)
      requires current.success
      modifies this`asr
      ensures Run(result, Snapshot(), doneAfter) == ReadStep(Settings(), audioPath, textInput, env, Run(current, old(Snapshot()), done))
    {
      var input: Result<string>;
      if Given(audioPath) {
        var err := LoadAsr(env);
        input := if err.Some? then Err(err.value) else env.transcribe(audioPath.value);
      } else if Given(textInput) {
        input := Ok(textInput.value);
      } else {
        input := Err(MissingInputMessage);
      }
      if input.Err? {
        return Failed(current, input.message), done;
      }
      result, doneAfter := current.(malayalamText := input.value), done + 1;
    }

    /** Stage 2 on a call still going: `ml_to_en` for Malayalam input, loading
        the translator first; other input is taken as English. */
    method EnglishStage(current: PipelineResult, ghost done: nat, inputLanguage: string, env: Env)
      returns (result: PipelineResult, ghost doneAfter: nat)
      requires Valid() && current.success
      modifies this`translator, translator
      ensures Valid() && (translator == old(translator) || fresh(translator))
      ensures Run(result, Snapshot(), doneAfter) == EnglishStep(Settings(), inputLanguage, env, Run(current, old(Snapshot()), done))
    {
      if inputLanguage != "ml" {
        return current.(englishText := current.malayalamText), done + 1;
      }
      var err := LoadTranslator(env);
      if err.Some? {
        return Failed(current, err.value), done;
      }
      var english := translator.MlToEn(current.malayalamText, env.translatorEnv, env.translate);
      if english.Err? {
        return Failed(current, english.message), done;
      }
      result, doneAfter := current.(englishText := english.value), done + 1;
    }

    /** Stage 3 on a call still going: the intent fields, when detection is
        on and the detector was loaded. */
    method IntentStage(current: PipelineResult, ghost done: nat, env: Env)
      returns (result: PipelineResult, ghost doneAfter: nat)
      requires Valid() && current.success
      modifies intentDetector
      ensures Valid()
      ensures Run(result, Snapshot(), doneAfter) == IntentStep(Settings(), Run(current, old(Snapshot()), done))
    {
      result, doneAfter := current, done + 1;
      if detectIntent && intentDetector != null {
        var intent := intentDetector.Detect(current.malayalamText, Some(current.englishText), env.generate, env.llmEnv);
        result := WithIntent(current, intent);
      }
    }

    /** Stage 4 on a call still going: a remembered chat turn on the English
        text, loading the chat model first. */
    method ReplyStage(current: PipelineResult, ghost done: nat, env: Env)
      returns (result: PipelineResult, ghost doneAfter: nat)
      requires Valid() && current.success
      modifies this`llm, llm
      ensures Valid() && (llm == old(llm) || fresh(llm))
      ensures Run(result, Snapshot(), doneAfter) == ReplyStep(Settings(), env, Run(current, old(Snapshot()), done))
    {
      var err := LoadLlm(env);
      if err.Some? {
        return Failed(current, err.value), done;
      }
      var reply := llm.Chat(current.englishText, env.generate, env.llmEnv);
      if reply.Err? {
        return Failed(current, reply.message), done;
      }
      result, doneAfter := current.(englishResponse := reply.value.content), done + 1;
    }

    /** Stage 5 on a call still going: `en_to_ml` of the reply, loading the
        translator first. */
    method BackStage(current: PipelineResult, ghost done: nat, env: Env)
      returns (result: PipelineResult, ghost doneAfter: nat)
      requires Valid() && current.success
      modifies this`translator, translator
      ensures Valid() && (translator == old(translator) || fresh(translator))
      ensures Run(result, Snapshot(), doneAfter) == BackStep(Settings(), env, Run(current, old(Snapshot()), done))
    {
      var err := LoadTranslator(env);
      if err.Some? {
        return Failed(current, err.value), done;
      }
      var back := translator.EnToMl(current.englishResponse, env.translatorEnv, env.translate);
      if back.Err? {
        return Failed(current, back.message), done;
      }
      result, doneAfter := current.(malayalamResponse := back.value), done + 1;
    }

    /** Stage 6 on a call still going: speech for the Malayalam reply with the
        configured backend, loading the TTS engine first. */
    method SpeechStage(current: PipelineResult, ghost done: nat, outputAudioPath: Option<string>, env: Env)
      returns (result: PipelineResult, ghost doneAfter: nat)
      requires Valid() && current.success
      modifies this`tts, tts
      ensures Valid() && (tts == old(tts) || fresh(tts))
      ensures Run(result, Snapshot(), doneAfter) == SpeechStep(Settings(), outputAudioPath, env, Run(current, old(Snapshot()), done))
    {
      LoadTts();
      var spoken := tts.Synthesize(current.malayalamResponse, env.ttsFailures, env.synth, "ml", None, outputAudioPath);
      if spoken.Err? {
        return Failed(current, spoken.message), done;
      }
      result, doneAfter := current.(audioOutput := Some(spoken.value.audio)), done + 1;
    }

    /** Stages 1 and 2: the Malayalam text and its English form, from the
        default result. */
    method Understand(audioPath: Option<string>, textInput: Option<string>, inputLanguage: string, env: Env)
      returns (result: PipelineResult, ghost done: nat)
      requires Valid()
      modifies this`asr, this`translator, translator
      ensures Valid() && (translator == old(translator) || fresh(translator))
      ensures Run(result, Snapshot(), done)
              == EnglishStep(Settings(), inputLanguage, env,
                             ReadStep(Settings(), audioPath, textInput, env, Run(Initial(audioPath), old(Snapshot()), 0)))
    {
      result, done := ReadStage(Initial(audioPath), 0, audioPath, textInput, env);
      if result.success {
        result, done := EnglishStage(result, done, inputLanguage, env);
      }
    }

    /** Stages 3 and 4: the intent fields, then the chat reply, unless an
        earlier stage raised. */
    method Converse(current: PipelineResult, ghost done: nat, env: Env)
      returns (result: PipelineResult, ghost doneAfter: nat)
      requires Valid()
      modifies intentDetector, this`llm, llm
      ensures Valid() && (llm == old(llm) || fresh(llm))
      ensures Run(result, Snapshot(), doneAfter)
              == ReplyStep(Settings(), env, IntentStep(Settings(), Run(current, old(Snapshot()), done)))
    {
      if !current.success {
        return current, done;
      }
      result, doneAfter := IntentStage(current, done, env);
      result, doneAfter := ReplyStage(result, doneAfter, env);
    }

    /** Stages 5 and 6: the Malayalam reply, then its speech, unless an
        earlier stage raised. */
    method Voice(current: PipelineResult, ghost done: nat, outputAudioPath: Option<string>, env: Env)
      returns (result: PipelineResult, ghost doneAfter: nat)
      requires Valid()
      modifies this`translator, translator, this`tts, tts
      ensures Valid() && (translator == old(translator) || fresh(translator))
      ensures tts == old(tts) || fresh(tts)
      ensures Run(result, Snapshot(), doneAfter)
              == SpeechStep(Settings(), outputAudioPath, env, BackStep(Settings(), env, Run(current, old(Snapshot()), done)))
    {
      if !current.success {
        return current, done;
      }
      result, doneAfter := BackStage(current, done, env);
      if result.success {
        result, doneAfter := SpeechStage(result, doneAfter, outputAudioPath, env);
      }
    }

    /** `process`: the six stages in order; the first that raises ends the
        call with `success` false and its error text. */
    method Process(audioPath: Option<string>, textInput: Option<string>, env: Env,
                   inputLanguage: string := "ml", outputAudioPath: Option<string> := None)
      returns (result: PipelineResult)
      requires Valid()
      modifies this, translator, llm, tts, intentDetector
      ensures Valid()
      ensures var run := ProcessOutcome(Settings(), old(Snapshot()), Call(audioPath, textInput, inputLanguage,
                                        outputAudioPath), env);
        result == run.result && Snapshot() == run.parts
    {
      ProcessOutcomeSteps(Settings(), Snapshot(), Call(audioPath, textInput, inputLanguage, outputAudioPath), env);
      ghost var done: nat;
      result, done := Understand(audioPath, textInput, inputLanguage, env);
      result, done := Converse(result, done, env);
      result, done := Voice(result, done, outputAudioPath, env);
    }

    /** `process_text`: `process` without an audio path. */
    method ProcessText(text: string, env: Env, inputLanguage: string := "ml", outputAudioPath: Option<string> := None)
      returns (result: PipelineResult)
      requires Valid()
      modifies this, translator, llm, tts, intentDetector
      ensures Valid()
      ensures var run := ProcessOutcome(Settings(), old(Snapshot()), Call(None, Some(text), inputLanguage,
                                        outputAudioPath), env);
        result == run.result && Snapshot() == run.parts
    {
      result := Process(None, Some(text), env, inputLanguage, outputAudioPath);
    }

    /** `clear_conversation`: empties the chat history if a chat model is
        loaded, and nothing else. */
    method ClearConversation()
      requires Valid()
      modifies llm
      ensures Valid()
      ensures Snapshot() == if old(llm) == null then old(Snapshot())
                            else old(Snapshot()).(llm := Some(old(llm.State()).(history := [])))
    {
      if llm != null {
        llm.ClearHistory();
      }
    }
  }
}
