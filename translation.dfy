/** The bookkeeping of the IndicTrans2 translator (translation/indictrans.py):
    the choice of direction, the language-code lookup, the tag put in front of
    the input and stripped from the output, and the per-direction lazy loading
    of models and tokenizers. The seq2seq model is an oracle. */
module Translation {
  import opened Outcomes
  import opened Text

  /** `IndicTranslator.MODELS`: direction to model id. */
  const Models: map<string, string> := map[
    "en-indic" := "ai4bharat/indictrans2-en-indic-1B",
    "indic-en" := "ai4bharat/indictrans2-indic-en-1B"
  ]

  /** `IndicTranslator.LANG_CODES`. */
  const LangCodes: map<string, string> := map[
    "ml" := "mal_Mlym", "hi" := "hin_Deva", "ta" := "tam_Taml", "te" := "tel_Telu",
    "bn" := "ben_Beng", "mr" := "mar_Deva", "gu" := "guj_Gujr", "kn" := "kan_Knda",
    "pa" := "pan_Guru", "en" := "eng_Latn"
  ]

  /** The directions `load_models` loads when given `None` or an empty list. */
  const DefaultDirections: seq<string> := ["en-indic", "indic-en"]

  /** How loading from the hub goes: the directions whose tokenizer or model
      fails to load (with the error text), and whether CUDA is available. */
  datatype LoadEnv = LoadEnv(failures: map<string, string>, cudaAvailable: bool)

  /** One call of the model: direction, tagged input text, the forced target
      language token and `max_length`. */
  datatype TranslationRequest = TranslationRequest(direction: string, input: string, targetCode: string, maxLength: int)

  /** The translator's state as values: loaded models (direction to model id) and the device. */
  datatype LoadState = LoadState(models: map<string, string>, device: string)

  /** `str(KeyError(d))`, the message of the error `MODELS[d]` raises for an unknown direction. */
  function KeyErrorMessage(d: string): string {
    "'" + d + "'"
  }

  function DeviceAfterLoad(device: string, cudaAvailable: bool): string {
    if device == "cuda" && cudaAvailable then "cuda" else "cpu"
  }

  /** The direction `translate` uses: English input goes "en-indic", anything else "indic-en". */
  function Direction(sourceLang: string): (d: string)
    ensures d in Models
    ensures d == "en-indic" <==> sourceLang == "en"
  {
    if sourceLang == "en" then "en-indic" else "indic-en"
  }

  /** `LANG_CODES.get(lang, lang)`. */
  function Code(lang: string): string {
    if lang in LangCodes then LangCodes[lang] else lang
  }

  /** The model input `f"{src_code} {text}"`. */
  function Tagged(code: string, text: string): string {
    code + " " + text
  }

  /** The output clean-up: a leading target tag is cut off and the rest stripped;
      output without the tag is returned unchanged. */
  function StripTag(decoded: string, tgtCode: string): string {
    if IsPrefix(tgtCode, decoded) then Strip(decoded[|tgtCode|..]) else decoded
  }

  /** Tagging then stripping the tag gives the text back whenever the text
      has no whitespace at its ends. */
  lemma StripTagOfTagged(code: string, text: string)
    requires text != [] ==> !IsSpace(text[0]) && !IsSpace(text[|text| - 1])
    ensures StripTag(Tagged(code, text), code) == text
  {
    var t := Tagged(code, text);
    assert t[..|code|] == code;
    assert t[|code|..] == " " + text;
    StripUnpadded(text);
    assert TrimStart(" " + text) == TrimStart(text);
  }

  /** The result of `load_models` run over `dirs` from state `st`: loaded
      directions are skipped, an unknown direction raises KeyError, a failing
      load raises its error, and a successful load adds the direction and may
      move the device to the CPU. Loading stops at the first error. */
  function LoadAll(st: LoadState, dirs: seq<string>, env: LoadEnv): (r: (LoadState, Option<string>))
    decreases |dirs|
  {
    if dirs == [] then (st, None)
    else if dirs[0] in st.models then LoadAll(st, dirs[1..], env)
    else if dirs[0] !in Models then (st, Some(KeyErrorMessage(dirs[0])))
    else if dirs[0] in env.failures then (st, Some(env.failures[dirs[0]]))
    else LoadAll(LoadState(st.models[dirs[0] := Models[dirs[0]]],
                           DeviceAfterLoad(st.device, env.cudaAvailable)), dirs[1..], env)
  }

  /** Every model loaded by `LoadAll` is the one `Models` names for its
      direction, earlier directions are kept even when a later one fails, and
      nothing but the requested directions is added. */
  lemma {:induction false} LoadAllGrows(st: LoadState, dirs: seq<string>, env: LoadEnv)
    ensures var r := LoadAll(st, dirs, env).0;
      && st.models.Keys <= r.models.Keys
      && (forall d :: d in r.models ==> d in st.models || d in dirs)
      && (forall d :: d in r.models && d !in st.models ==> d in Models && r.models[d] == Models[d])
      && (forall d :: d in st.models ==> r.models[d] == st.models[d])
    decreases |dirs|
  {
    if dirs != [] {
      if dirs[0] in st.models {
        LoadAllGrows(st, dirs[1..], env);
      } else if dirs[0] in Models && dirs[0] !in env.failures {
        var next := LoadState(st.models[dirs[0] := Models[dirs[0]]],
                              DeviceAfterLoad(st.device, env.cudaAvailable));
        LoadAllGrows(next, dirs[1..], env);
      }
    }
  }

  /** A run that raised no error has loaded every requested direction. */
  lemma {:induction false} LoadAllCovers(st: LoadState, dirs: seq<string>, env: LoadEnv)
    ensures var (r, err) := LoadAll(st, dirs, env);
      err.None? ==> forall d :: d in dirs ==> d in r.models
    decreases |dirs|
  {
    if dirs != [] {
      if dirs[0] in st.models {
        LoadAllCovers(st, dirs[1..], env);
        LoadAllGrows(st, dirs[1..], env);
      } else if dirs[0] in Models && dirs[0] !in env.failures {
        var next := LoadState(st.models[dirs[0] := Models[dirs[0]]],
                              DeviceAfterLoad(st.device, env.cudaAvailable));
        LoadAllCovers(next, dirs[1..], env);
        LoadAllGrows(next, dirs[1..], env);
      }
    }
  }

  /** When every requested direction is already loaded, `load_models` does nothing. */
  lemma {:induction false} LoadAllLoadedNoop(st: LoadState, dirs: seq<string>, env: LoadEnv)
    requires forall d :: d in dirs ==> d in st.models
    ensures LoadAll(st, dirs, env) == (st, None)
    decreases |dirs|
  {
    if dirs != [] {
      LoadAllLoadedNoop(st, dirs[1..], env);
    }
  }

  /** `load_models` is idempotent: after a run without error, running it again
      on the same directions changes nothing and raises nothing. */
  lemma LoadAllIdempotent(st: LoadState, dirs: seq<string>, env: LoadEnv)
    requires LoadAll(st, dirs, env).1.None?
    ensures var r := LoadAll(st, dirs, env).0; LoadAll(r, dirs, env) == (r, None)
  {
    LoadAllCovers(st, dirs, env);
    LoadAllLoadedNoop(LoadAll(st, dirs, env).0, dirs, env);
  }

  /** `directions or ["en-indic", "indic-en"]`. */
  function RequestedDirections(directions: Option<seq<string>>): seq<string> {
    if directions == None || directions.value == [] then DefaultDirections else directions.value
  }

  /** What `translate` returns, and the state it leaves, from state `st`. */
  function TranslateOutcome(st: LoadState, text: string, sourceLang: string, targetLang: string,
                            maxLength: int, env: LoadEnv,
                            engine: TranslationRequest -> Result<string>): (Result<string>, LoadState)
  {
    var direction := Direction(sourceLang);
    var (loaded, err) := if direction in st.models then (st, None) else LoadAll(st, [direction], env);
    if err.Some? then (Err(err.value), loaded)
    else
      var tgtCode := Code(targetLang);
      match engine(TranslationRequest(direction, Tagged(Code(sourceLang), text), tgtCode, maxLength))
      case Err(e) => (Err(e), loaded)
      case Ok(decoded) => (Ok(StripTag(decoded, tgtCode)), loaded)
  }

  /** A translation either raises or hands back the model output for the
      tagged input, with a leading target tag removed; afterwards the direction
      it needed is loaded unless loading raised. */
  lemma TranslateOutcomeSpec(st: LoadState, text: string, sourceLang: string, targetLang: string,
                             maxLength: int, env: LoadEnv, engine: TranslationRequest -> Result<string>)
    ensures var (r, after) := TranslateOutcome(st, text, sourceLang, targetLang, maxLength, env, engine);
      var request := TranslationRequest(Direction(sourceLang), Tagged(Code(sourceLang), text), Code(targetLang), maxLength);
      && (r.Ok? ==> engine(request).Ok? && r.value == StripTag(engine(request).value, Code(targetLang))
                    && Direction(sourceLang) in after.models)
      && (Direction(sourceLang) in st.models ==> after == st)
      && (Direction(sourceLang) !in st.models && Direction(sourceLang) in env.failures ==>
            r == Err(env.failures[Direction(sourceLang)]) && after == st)
      && st.models.Keys <= after.models.Keys
  {
    var direction := Direction(sourceLang);
    if direction !in st.models {
      LoadAllCovers(st, [direction], env);
      LoadAllGrows(st, [direction], env);
    }
  }

  /** `get_supported_languages`. */
  function SupportedLanguages(): map<string, string> {
    map["ml" := "Malayalam", "hi" := "Hindi", "ta" := "Tamil", "te" := "Telugu",
        "bn" := "Bengali", "mr" := "Marathi", "gu" := "Gujarati", "kn" := "Kannada",
        "pa" := "Punjabi", "en" := "English"]
  }

  /** Every supported language has a code and every code is a supported language. */
  lemma SupportedLanguagesMatchCodes()
    ensures SupportedLanguages().Keys == LangCodes.Keys
  {
  }

  class IndicTranslator {
    var device: string
    /** Direction to the loaded model (recorded by its model id). */
    var models: map<string, string>
    /** Direction to the loaded tokenizer (recorded by the same id). */
    var tokenizers: map<string, string>

    /** `models` and `tokenizers` are written together, so they agree. */
    ghost predicate Valid()
      reads this
    {
      models == tokenizers
    }

    function State(): LoadState
      reads this
    {
      LoadState(models, device)
    }

    /** `IndicTranslator(device)` with `load_on_init=False`: nothing loaded. */
    constructor (device: string := "cuda")
      ensures Valid() && this.device == device && models == map[] && tokenizers == map[]
    {
      this.device := device;
      models := map[];
      tokenizers := map[];
    }

    /** `load_models`: walks the requested directions in order, skipping loaded
        ones, and stops with the error of the first direction that is unknown or
        fails to load. */
    method LoadModels(directions: Option<seq<string>>, env: LoadEnv) returns (err: Option<string>)
      requires Valid()
      modifies this
      ensures Valid()
      ensures (State(), err) == LoadAll(old(State()), RequestedDirections(directions), env)
    {
      var dirs := RequestedDirections(directions);
      var i := 0;
      while i < |dirs|
        invariant 0 <= i <= |dirs|
        invariant Valid()
        invariant LoadAll(old(State()), dirs, env) == LoadAll(State(), dirs[i..], env)
      {
        var direction := dirs[i];
        assert dirs[i..][1..] == dirs[i + 1..];
        if direction in models {
          i := i + 1;
          continue;
        }
        if direction !in Models {
          return Some(KeyErrorMessage(direction));
        }
        if direction in env.failures {
          return Some(env.failures[direction]);
        }
        device := DeviceAfterLoad(device, env.cudaAvailable);
        tokenizers := tokenizers[direction := Models[direction]];
        models := models[direction := Models[direction]];
        i := i + 1;
      }
      err := None;
    }

    /** `translate`: picks the direction, loads it if missing, asks the model
        with the tagged input and strips a leading target tag from the output. */
    method Translate(text: string, sourceLang: string, targetLang: string,
                     env: LoadEnv, engine: TranslationRequest -> Result<string>,
                     maxLength: int := 256)
      returns (r: Result<string>)
      requires Valid()
      modifies this
      ensures Valid()
      ensures (r, State()) == TranslateOutcome(old(State()), text, sourceLang, targetLang, maxLength, env, engine)
    {
      var direction := Direction(sourceLang);
      if direction !in models {
        var err := LoadModels(Some([direction]), env);
        if err.Some? {
          return Err(err.value);
        }
      }
      var srcCode := Code(sourceLang);
      var tgtCode := Code(targetLang);
      var outcome := engine(TranslationRequest(direction, Tagged(srcCode, text), tgtCode, maxLength));
      if outcome.Err? {
        return Err(outcome.message);
      }
      r := Ok(StripTag(outcome.value, tgtCode));
    }

    /** `ml_to_en`: `translate(text, "ml", "en")`. */
    method MlToEn(text: string, env: LoadEnv, engine: TranslationRequest -> Result<string>)
      returns (r: Result<string>)
      requires Valid()
      modifies this
      ensures Valid()
      ensures (r, State()) == TranslateOutcome(old(State()), text, "ml", "en", 256, env, engine)
    {
      r := Translate(text, "ml", "en", env, engine);
    }

    /** `en_to_ml`: `translate(text, "en", "ml")`. */
    method EnToMl(text: string, env: LoadEnv, engine: TranslationRequest -> Result<string>)
      returns (r: Result<string>)
      requires Valid()
      modifies this
      ensures Valid()
      ensures (r, State()) == TranslateOutcome(old(State()), text, "en", "ml", 256, env, engine)
    {
      r := Translate(text, "en", "ml", env, engine);
    }
  }
}
