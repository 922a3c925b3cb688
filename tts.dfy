/** The unified TTS front end (tts/tts_engine.py): the lazily filled cache of
    backend engines, `synthesize` with its default backend and echoed result,
    the A/B `compare` over several backends and the counting part of
    `benchmark`. Building a backend and synthesising speech are oracles. */
module Tts {
  import opened Outcomes

  /** `TTSEngine.BACKENDS`, in order. */
  const Backends: seq<string> := ["mms", "cartesia", "indic"]

  /** The sample rate used when an engine has no `sample_rate` attribute. */
  const FallbackSampleRate: int := 22050

  /** What a backend hands back: samples, or the path it saved them to. */
  datatype Audio = Samples(values: seq<real>) | SavedFile(path: string)

  /** A constructed backend engine; `sampleRate` is its `sample_rate` attribute, if any. */
  datatype BackendEngine = BackendEngine(backend: string, sampleRate: Option<int>)

  /** One `engine.synthesize` call. */
  datatype SynthesisRequest = SynthesisRequest(backend: string, text: string, language: string, outputPath: Option<string>)

  /** `TTSResult` without its timing field. */
  datatype TtsResult = TtsResult(audio: Audio, backend: string, language: string, sampleRate: int, text: string)

  /** One entry of the `benchmark` result: how many timings were recorded, how
      many errors were counted, and whether `mean_ms` is a number (not None). */
  datatype BackendBenchmark = BackendBenchmark(timings: nat, errors: nat, hasMean: bool)

  /** The engine each known backend constructs: MMS-TTS sets 16000, Cartesia
      24000 and the Indic engine no sample rate at all. */
  function Build(backend: string): BackendEngine
    requires backend in Backends
  {
    BackendEngine(backend, if backend == "mms" then Some(16000) else if backend == "cartesia" then Some(24000) else None)
  }

  /** `getattr(engine, 'sample_rate', 22050)`. */
  function SampleRate(engine: BackendEngine): int {
    if engine.sampleRate.Some? then engine.sampleRate.value else FallbackSampleRate
  }

  function UnknownBackendMessage(backend: string): string {
    "Unknown backend: " + backend
  }

  // ---------------------------------------------------------------- engine cache

  /** Every cached engine belongs to a known backend and is the engine that backend builds. */
  ghost predicate CacheValid(engines: map<string, BackendEngine>) {
    forall b :: b in engines ==> b in Backends && engines[b] == Build(b)
  }

  /** Whether `_get_engine(backend)` succeeds: cached already, or known and
      constructible (`buildFailures` holds the constructors that raise). */
  predicate Buildable(engines: map<string, BackendEngine>, backend: string, buildFailures: map<string, string>) {
    backend in engines || (backend in Backends && backend !in buildFailures)
  }

  /** `_get_engine`: the cached engine, or a new one, or the error raised. */
  function EngineFor(engines: map<string, BackendEngine>, backend: string, buildFailures: map<string, string>): Result<BackendEngine> {
    if backend in engines then Ok(engines[backend])
    else if backend !in Backends then Err(UnknownBackendMessage(backend))
    else if backend in buildFailures then Err(buildFailures[backend])
    else Ok(Build(backend))
  }

  /** The cache after `_get_engine(backend)`: the engine it returned is stored. */
  function AfterLookup(engines: map<string, BackendEngine>, backend: string, buildFailures: map<string, string>): map<string, BackendEngine> {
    var r := EngineFor(engines, backend, buildFailures);
    if r.Ok? then engines[backend := r.value] else engines
  }

  /** `_get_engine` succeeds exactly for buildable backends and then returns the
      engine that backend builds; an unknown backend raises "Unknown backend";
      the cache stays valid and gains the backend exactly when it is buildable. */
  lemma EngineForSpec(engines: map<string, BackendEngine>, backend: string, buildFailures: map<string, string>)
    requires CacheValid(engines)
    ensures EngineFor(engines, backend, buildFailures).Ok? <==> Buildable(engines, backend, buildFailures)
    ensures EngineFor(engines, backend, buildFailures).Ok? ==>
      backend in Backends && EngineFor(engines, backend, buildFailures).value == Build(backend)
    ensures backend !in Backends ==> EngineFor(engines, backend, buildFailures) == Err(UnknownBackendMessage(backend))
    ensures var after := AfterLookup(engines, backend, buildFailures);
      && CacheValid(after)
      && (forall b :: b in after <==> b in engines || (b == backend && Buildable(engines, backend, buildFailures)))
  {
  }

  /** Once a backend's engine is cached, every later lookup returns that same
      engine whatever the constructors would do now, and leaves the cache as
      it is: each backend is constructed at most once. */
  lemma EngineCachedOnce(engines: map<string, BackendEngine>, backend: string, first: map<string, string>, later: map<string, string>)
    requires EngineFor(engines, backend, first).Ok?
    ensures var cached := AfterLookup(engines, backend, first);
      && EngineFor(cached, backend, later) == EngineFor(engines, backend, first)
      && AfterLookup(cached, backend, later) == cached
  {
  }

  /** The cache holds exactly what it held at `start` plus every listed
      backend that could be built. */
  ghost predicate CacheGrown(engines: map<string, BackendEngine>, start: map<string, BackendEngine>,
                             listed: seq<string>, buildFailures: map<string, string>)
  {
    forall b :: b in engines <==> b in start || (b in listed && b in Backends && b !in buildFailures)
  }

  /** Looking up `listed` one name after another. */
  function LookupAll(engines: map<string, BackendEngine>, listed: seq<string>, buildFailures: map<string, string>): map<string, BackendEngine>
    decreases |listed|
  {
    if listed == [] then engines
    else AfterLookup(LookupAll(engines, listed[..|listed| - 1], buildFailures), listed[|listed| - 1], buildFailures)
  }

  /** After a series of lookups the cache is still valid and holds the
      buildable names looked up and nothing else new. */
  lemma {:induction false} LookupAllGrows(engines: map<string, BackendEngine>, listed: seq<string>, buildFailures: map<string, string>)
    requires CacheValid(engines)
    ensures CacheValid(LookupAll(engines, listed, buildFailures))
    ensures CacheGrown(LookupAll(engines, listed, buildFailures), engines, listed, buildFailures)
    decreases |listed|
  {
    if listed != [] {
      var front := listed[..|listed| - 1];
      LookupAllGrows(engines, front, buildFailures);
      EngineForSpec(LookupAll(engines, front, buildFailures), listed[|listed| - 1], buildFailures);
      assert listed == front + [listed[|listed| - 1]];
    }
  }

  // ---------------------------------------------------------------- synthesize

  /** `backend or self.default_backend`. */
  function ChosenBackend(backend: Option<string>, defaultBackend: string): string {
    if backend.None? || backend.value == "" then defaultBackend else backend.value
  }

  /** The backend each listed name resolves to inside `synthesize`. */
  function Resolved(bs: seq<string>, defaultBackend: string): (rs: seq<string>)
    ensures |rs| == |bs|
    ensures forall k :: 0 <= k < |bs| ==> rs[k] == ChosenBackend(Some(bs[k]), defaultBackend)
  {
    seq(|bs|, k requires 0 <= k < |bs| => ChosenBackend(Some(bs[k]), defaultBackend))
  }

  /** `backends or self.BACKENDS`. */
  function RequestedBackends(backends: Option<seq<string>>): seq<string> {
    if backends.None? || backends.value == [] then Backends else backends.value
  }

  /** What `synthesize` returns for a chosen backend, given the cache it starts from. */
  function SynthesisOutcome(engines: map<string, BackendEngine>, backend: string, text: string, language: string,
                            outputPath: Option<string>, buildFailures: map<string, string>,
                            synth: SynthesisRequest -> Result<Audio>): Result<TtsResult>
  {
    match EngineFor(engines, backend, buildFailures)
    case Err(e) => Err(e)
    case Ok(engine) =>
      match synth(SynthesisRequest(backend, text, language, outputPath))
      case Err(e) => Err(e)
      case Ok(audio) => Ok(TtsResult(audio, backend, language, SampleRate(engine), text))
  }

  /** A synthesis succeeds exactly when the engine can be had and the backend
      produces audio; the result then echoes backend, language and text, carries
      that audio, and reports 16000, 24000 or the 22050 fallback as the rate. */
  lemma SynthesisOutcomeSpec(engines: map<string, BackendEngine>, backend: string, text: string, language: string,
                             outputPath: Option<string>, buildFailures: map<string, string>,
                             synth: SynthesisRequest -> Result<Audio>)
    requires CacheValid(engines)
    ensures var r := SynthesisOutcome(engines, backend, text, language, outputPath, buildFailures, synth);
      var request := SynthesisRequest(backend, text, language, outputPath);
      && (r.Ok? <==> Buildable(engines, backend, buildFailures) && synth(request).Ok?)
      && (r.Ok? ==> && r.value.audio == synth(request).value
                    && r.value.backend == backend && r.value.language == language && r.value.text == text
                    && r.value.sampleRate == (if backend == "mms" then 16000
                                              else if backend == "cartesia" then 24000 else FallbackSampleRate))
  {
  }

  /** The outcome depends on the cache only through whether the backend is
      buildable from it, so a cache grown by `_get_engine` gives the same answers. */
  lemma SynthesisOutcomeCacheIndependent(e1: map<string, BackendEngine>, e2: map<string, BackendEngine>,
                                         backend: string, text: string, language: string,
                                         outputPath: Option<string>, buildFailures: map<string, string>,
                                         synth: SynthesisRequest -> Result<Audio>)
    requires CacheValid(e1) && CacheValid(e2)
    requires Buildable(e1, backend, buildFailures) == Buildable(e2, backend, buildFailures)
    ensures SynthesisOutcome(e1, backend, text, language, outputPath, buildFailures, synth)
         == SynthesisOutcome(e2, backend, text, language, outputPath, buildFailures, synth)
  {
    EngineForSpec(e1, backend, buildFailures);
    EngineForSpec(e2, backend, buildFailures);
  }

  // ---------------------------------------------------------------- compare

  /** Whether `compare` was given an output directory (`if output_dir:`). */
  predicate MakesDir(outputDir: Option<string>) {
    outputDir.Some? && outputDir.value != ""
  }

  /** The file `compare` asks a backend to write, `output_dir / "{backend}_{language}.wav"`,
      only when an output directory is given. */
  function OutputPath(outputDir: Option<string>, backend: string, language: string): Option<string> {
    if !MakesDir(outputDir) then None
    else Some(outputDir.value + "/" + backend + "_" + language + ".wav")
  }

  /** Backends whose names have no underscore, as all of `Backends`, get
      different output files in one `compare` run. */
  lemma OutputPathsDistinct(outputDir: string, b1: string, b2: string, language: string)
    requires outputDir != ""
    requires b1 != b2 && '_' !in b1 && '_' !in b2
    ensures OutputPath(Some(outputDir), b1, language) != OutputPath(Some(outputDir), b2, language)
  {
    var p1 := outputDir + "/" + b1 + "_" + language + ".wav";
    var p2 := outputDir + "/" + b2 + "_" + language + ".wav";
    var n := |outputDir| + 1;
    if |b1| == |b2| {
      var k :| 0 <= k < |b1| && b1[k] != b2[k];
      assert p1[n + k] == b1[k] && p2[n + k] == b2[k];
    } else if |b1| < |b2| {
      assert p1[n + |b1|] == '_' && p2[n + |b1|] == b2[|b1|];
    } else {
      assert p2[n + |b2|] == '_' && p1[n + |b2|] == b1[|b2|];
    }
  }

  /** The `compare` entry for one backend: the result, or None on failure. */
  function AsOption(r: Result<TtsResult>): Option<TtsResult> {
    if r.Ok? then Some(r.value) else None
  }

  /** The `compare` entry of one listed name, against the cache `compare` started from. */
  function CompareEntry(engines: map<string, BackendEngine>, name: string, defaultBackend: string, text: string,
                        language: string, outputDir: Option<string>, buildFailures: map<string, string>,
                        synth: SynthesisRequest -> Result<Audio>): Option<TtsResult>
  {
    AsOption(SynthesisOutcome(engines, ChosenBackend(Some(name), defaultBackend), text, language,
                              OutputPath(outputDir, name, language), buildFailures, synth))
  }

  /** The results and the cache after the `compare` loop has walked `listed`,
      each name synthesised against the cache left by the names before it. */
  function CompareRun(engines: map<string, BackendEngine>, listed: seq<string>, defaultBackend: string, text: string,
                      language: string, outputDir: Option<string>, buildFailures: map<string, string>,
                      synth: SynthesisRequest -> Result<Audio>): (map<string, Option<TtsResult>>, map<string, BackendEngine>)
    decreases |listed|
  {
    if listed == [] then (map[], engines)
    else
      var (results, cache) := CompareRun(engines, listed[..|listed| - 1], defaultBackend, text, language,
                                         outputDir, buildFailures, synth);
      var b := listed[|listed| - 1];
      var chosen := ChosenBackend(Some(b), defaultBackend);
      (results[b := AsOption(SynthesisOutcome(cache, chosen, text, language, OutputPath(outputDir, b, language),
                                              buildFailures, synth))],
       AfterLookup(cache, chosen, buildFailures))
  }

  /** The names `compare` has answered for are exactly the names it walked. */
  lemma {:induction false} CompareRunKeys(engines: map<string, BackendEngine>, listed: seq<string>, defaultBackend: string,
                                          text: string, language: string, outputDir: Option<string>,
                                          buildFailures: map<string, string>, synth: SynthesisRequest -> Result<Audio>,
                                          x: string)
    ensures x in CompareRun(engines, listed, defaultBackend, text, language, outputDir, buildFailures, synth).0 <==> x in listed
    decreases |listed|
  {
    if listed != [] {
      var front := listed[..|listed| - 1];
      CompareRunKeys(engines, front, defaultBackend, text, language, outputDir, buildFailures, synth, x);
      assert listed == front + [listed[|listed| - 1]];
    }
  }

  /** The cache `compare` leaves is the one the resolved names' lookups leave. */
  lemma {:induction false} CompareRunCache(engines: map<string, BackendEngine>, listed: seq<string>, defaultBackend: string,
                                           text: string, language: string, outputDir: Option<string>,
                                           buildFailures: map<string, string>, synth: SynthesisRequest -> Result<Audio>)
    ensures CompareRun(engines, listed, defaultBackend, text, language, outputDir, buildFailures, synth).1
         == LookupAll(engines, Resolved(listed, defaultBackend), buildFailures)
    decreases |listed|
  {
    if listed != [] {
      var front := listed[..|listed| - 1];
      CompareRunCache(engines, front, defaultBackend, text, language, outputDir, buildFailures, synth);
      var rs := Resolved(listed, defaultBackend);
      assert rs[..|rs| - 1] == Resolved(front, defaultBackend);
    }
  }

  /** Each answer of `compare` is what that name alone would get from the
      starting cache: the engines built earlier in the run change nothing. */
  lemma {:induction false} CompareRunEntry(engines: map<string, BackendEngine>, listed: seq<string>, defaultBackend: string,
                                           text: string, language: string, outputDir: Option<string>,
                                           buildFailures: map<string, string>, synth: SynthesisRequest -> Result<Audio>,
                                           x: string)
    requires CacheValid(engines)
    requires x in listed
    ensures var results := CompareRun(engines, listed, defaultBackend, text, language, outputDir, buildFailures, synth).0;
      x in results && results[x] == CompareEntry(engines, x, defaultBackend, text, language, outputDir, buildFailures, synth)
    decreases |listed|
  {
    var front := listed[..|listed| - 1];
    var b := listed[|listed| - 1];
    CompareRunKeys(engines, listed, defaultBackend, text, language, outputDir, buildFailures, synth, x);
    if x == b {
      var chosen := ChosenBackend(Some(b), defaultBackend);
      var cache := CompareRun(engines, front, defaultBackend, text, language, outputDir, buildFailures, synth).1;
      CompareRunCache(engines, front, defaultBackend, text, language, outputDir, buildFailures, synth);
      LookupAllGrows(engines, Resolved(front, defaultBackend), buildFailures);
      SynthesisOutcomeCacheIndependent(engines, cache, chosen, text, language, OutputPath(outputDir, b, language),
                                       buildFailures, synth);
    } else {
      assert listed == front + [b];
      CompareRunEntry(engines, front, defaultBackend, text, language, outputDir, buildFailures, synth, x);
    }
  }

  /** `compare` answers for exactly the listed names, each as that name alone
      would be answered from the starting cache, and the cache grows by the
      buildable resolved names. */
  lemma CompareRunSpec(engines: map<string, BackendEngine>, listed: seq<string>, defaultBackend: string,
                       text: string, language: string, outputDir: Option<string>,
                       buildFailures: map<string, string>, synth: SynthesisRequest -> Result<Audio>)
    requires CacheValid(engines)
    ensures var run := CompareRun(engines, listed, defaultBackend, text, language, outputDir, buildFailures, synth);
      && (forall b :: b in run.0 <==> b in listed)
      && (forall b :: b in run.0 ==>
            run.0[b] == CompareEntry(engines, b, defaultBackend, text, language, outputDir, buildFailures, synth))
      && CacheValid(run.1)
      && CacheGrown(run.1, engines, Resolved(listed, defaultBackend), buildFailures)
  {
    var results := CompareRun(engines, listed, defaultBackend, text, language, outputDir, buildFailures, synth).0;
    forall b
      ensures b in results <==> b in listed
      ensures b in results ==>
        results[b] == CompareEntry(engines, b, defaultBackend, text, language, outputDir, buildFailures, synth)
    {
      CompareRunKeys(engines, listed, defaultBackend, text, language, outputDir, buildFailures, synth, b);
      if b in listed {
        CompareRunEntry(engines, listed, defaultBackend, text, language, outputDir, buildFailures, synth, b);
      }
    }
    CompareRunCache(engines, listed, defaultBackend, text, language, outputDir, buildFailures, synth);
    LookupAllGrows(engines, Resolved(listed, defaultBackend), buildFailures);
  }

  // ---------------------------------------------------------------- benchmark

  /** The engine's answer on each call `benchmark` makes: the request and the
      pass (from 0) over that text, so passes over one text may answer
      differently. */
  type PassSynth = (SynthesisRequest, nat) -> Result<Audio>

  /** The number of passes `range(iterations)` makes. */
  function Passes(iterations: int): nat {
    if iterations < 0 then 0 else iterations
  }

  /** How many of the first `k` passes over `text` the backend answers
      without raising. */
  function PassSuccesses(backend: string, text: string, language: string, k: nat, synth: PassSynth): (n: nat)
    ensures n <= k
  {
    if k == 0 then 0
    else PassSuccesses(backend, text, language, k - 1, synth)
         + (if synth(SynthesisRequest(backend, text, language, None), k - 1).Ok? then 1 else 0)
  }

  /** How many of the calls over `texts`, `passes` per text, the backend
      answers without raising. */
  function Successes(backend: string, texts: seq<string>, language: string, passes: nat, synth: PassSynth): (n: nat)
    ensures n <= |texts| * passes
    decreases |texts|
  {
    if texts == [] then 0
    else
      var front := Successes(backend, texts[..|texts| - 1], language, passes, synth);
      var last := PassSuccesses(backend, texts[|texts| - 1], language, passes, synth);
      assert |texts| * passes == (|texts| - 1) * passes + passes;
      front + last
  }

  /** The `benchmark` entry of a backend listed `count` times: nothing when its
      engine cannot be had, otherwise one timing per successful call and one
      error per failing call, over every listing, text and pass. */
  function BenchmarkEntry(count: nat, buildable: bool, backend: string, texts: seq<string>, language: string,
                          iterations: int, synth: PassSynth): BackendBenchmark
  {
    if !buildable then BackendBenchmark(0, 0, false)
    else
      var s := Successes(backend, texts, language, Passes(iterations), synth);
      var t := count * s;
      BackendBenchmark(t, count * (|texts| * Passes(iterations) - s), t > 0)
  }

  /** For a backend listed once whose engine can be built, every call is
      either timed or counted as an error; an unbuildable backend records
      nothing; `mean_ms` is present exactly when some call was timed. */
  lemma BenchmarkEntryCounts(buildable: bool, backend: string, texts: seq<string>, language: string,
                             iterations: int, synth: PassSynth)
    ensures var e := BenchmarkEntry(1, buildable, backend, texts, language, iterations, synth);
      && (buildable ==> e.timings + e.errors == |texts| * Passes(iterations))
      && (!buildable ==> e.timings == 0 && e.errors == 0)
      && (e.hasMean <==> e.timings > 0)
  {
  }

  /** Passes over one text are separate calls: a first pass that raises and a
      second that answers give one timing and one error. */
  lemma MixedPasses(backend: string, text: string, language: string, synth: PassSynth)
    requires synth(SynthesisRequest(backend, text, language, None), 0).Err?
    requires synth(SynthesisRequest(backend, text, language, None), 1).Ok?
    ensures BenchmarkEntry(1, true, backend, [text], language, 2, synth) == BackendBenchmark(1, 1, true)
  {
    assert PassSuccesses(backend, text, language, 1, synth) == 0;
    assert PassSuccesses(backend, text, language, 2, synth) == 1;
    assert [text][..0] == [];
    assert Successes(backend, [text], language, 2, synth) == 1;
  }

  /** An entry after one run of the passes for a built backend. */
  function AfterPasses(stats: BackendBenchmark, backend: string, texts: seq<string>, language: string,
                       iterations: int, synth: PassSynth): BackendBenchmark
  {
    var s := Successes(backend, texts, language, Passes(iterations), synth);
    stats.(timings := stats.timings + s,
           errors := stats.errors + (|texts| * Passes(iterations) - s))
  }

  /** One more listing of a built backend adds one run of the passes to its entry. */
  lemma BenchmarkEntryStep(count: nat, backend: string, texts: seq<string>, language: string,
                           iterations: int, synth: PassSynth)
    ensures BenchmarkEntry(count + 1, true, backend, texts, language, iterations, synth).(hasMean := false)
         == AfterPasses(BenchmarkEntry(count, true, backend, texts, language, iterations, synth).(hasMean := false),
                        backend, texts, language, iterations, synth)
  {
    var s := Successes(backend, texts, language, Passes(iterations), synth);
    var e := |texts| * Passes(iterations) - s;
    assert (count + 1) * s == count * s + s;
    assert (count + 1) * e == count * e + e;
  }

  /** The entries `benchmark` starts from: zero for every listed backend. */
  function ZeroEntries(bs: seq<string>): map<string, BackendBenchmark> {
    map b | b in bs :: BackendBenchmark(0, 0, false)
  }

  /** The counts and the cache after the counting loop of `benchmark` has
      walked `listed`: a backend whose engine can be had gets its passes. */
  function CountRun(init: map<string, BackendBenchmark>, engines: map<string, BackendEngine>, listed: seq<string>,
                    buildFailures: map<string, string>, texts: seq<string>, language: string, iterations: int,
                    synth: PassSynth): (map<string, BackendBenchmark>, map<string, BackendEngine>)
    decreases |listed|
  {
    if listed == [] then (init, engines)
    else
      var (counts, cache) := CountRun(init, engines, listed[..|listed| - 1], buildFailures, texts, language, iterations, synth);
      var b := listed[|listed| - 1];
      (if b in counts && EngineFor(cache, b, buildFailures).Ok?
       then counts[b := AfterPasses(counts[b], b, texts, language, iterations, synth)] else counts,
       AfterLookup(cache, b, buildFailures))
  }

  /** The counting loop never adds or removes an entry. */
  lemma {:induction false} CountRunKeys(init: map<string, BackendBenchmark>, engines: map<string, BackendEngine>,
                                        listed: seq<string>, buildFailures: map<string, string>, texts: seq<string>,
                                        language: string, iterations: int, synth: PassSynth,
                                        x: string)
    ensures x in CountRun(init, engines, listed, buildFailures, texts, language, iterations, synth).0 <==> x in init
    decreases |listed|
  {
    if listed != [] {
      CountRunKeys(init, engines, listed[..|listed| - 1], buildFailures, texts, language, iterations, synth, x);
    }
  }

  /** The cache the counting loop leaves is the one its lookups leave. */
  lemma {:induction false} CountRunCache(init: map<string, BackendBenchmark>, engines: map<string, BackendEngine>,
                                         listed: seq<string>, buildFailures: map<string, string>, texts: seq<string>,
                                         language: string, iterations: int, synth: PassSynth)
    ensures CountRun(init, engines, listed, buildFailures, texts, language, iterations, synth).1
         == LookupAll(engines, listed, buildFailures)
    decreases |listed|
  {
    if listed != [] {
      CountRunCache(init, engines, listed[..|listed| - 1], buildFailures, texts, language, iterations, synth);
    }
  }

  /** Starting from zero entries, the count of each backend is its
      `BenchmarkEntry` for the number of times it is listed and whether it is
      buildable from the starting cache. */
  lemma {:induction false} CountRunEntry(all: seq<string>, engines: map<string, BackendEngine>, listed: seq<string>,
                                         buildFailures: map<string, string>, texts: seq<string>, language: string,
                                         iterations: int, synth: PassSynth, x: string)
    requires CacheValid(engines)
    requires x in all
    ensures var counts := CountRun(ZeroEntries(all), engines, listed, buildFailures, texts, language, iterations, synth).0;
      x in counts && counts[x] == BenchmarkEntry(multiset(listed)[x], Buildable(engines, x, buildFailures),
                                                 x, texts, language, iterations, synth).(hasMean := false)
    decreases |listed|
  {
    CountRunKeys(ZeroEntries(all), engines, listed, buildFailures, texts, language, iterations, synth, x);
    if listed != [] {
      var front := listed[..|listed| - 1];
      var b := listed[|listed| - 1];
      CountRunEntry(all, engines, front, buildFailures, texts, language, iterations, synth, x);
      var (counts, cache) := CountRun(ZeroEntries(all), engines, front, buildFailures, texts, language, iterations, synth);
      var next := CountRun(ZeroEntries(all), engines, listed, buildFailures, texts, language, iterations, synth).0;
      assert listed == front + [b];
      assert multiset(listed) == multiset(front) + multiset{b};
      if x == b {
        CountRunCache(ZeroEntries(all), engines, front, buildFailures, texts, language, iterations, synth);
        LookupAllGrows(engines, front, buildFailures);
        EngineForSpec(cache, b, buildFailures);
        assert multiset(listed)[b] == multiset(front)[b] + 1;
        if Buildable(engines, b, buildFailures) {
          assert next[b] == AfterPasses(counts[b], b, texts, language, iterations, synth);
          BenchmarkEntryStep(multiset(front)[b], b, texts, language, iterations, synth);
        } else {
          assert next[b] == counts[b];
        }
      } else {
        assert multiset(listed)[x] == multiset(front)[x];
        assert next[x] == counts[x];
      }
    }
  }

  /** The counting loop of `benchmark` from zero entries: an entry per listed
      backend, each its `BenchmarkEntry`, and the cache grown by the
      buildable listed backends. */
  lemma CountRunSpec(all: seq<string>, engines: map<string, BackendEngine>,
                     buildFailures: map<string, string>, texts: seq<string>, language: string,
                     iterations: int, synth: PassSynth)
    requires CacheValid(engines)
    ensures var run := CountRun(ZeroEntries(all), engines, all, buildFailures, texts, language, iterations, synth);
      && (forall b :: b in run.0 <==> b in all)
      && (forall b :: b in run.0 ==>
            run.0[b] == BenchmarkEntry(multiset(all)[b], Buildable(engines, b, buildFailures),
                                       b, texts, language, iterations, synth).(hasMean := false))
      && CacheValid(run.1)
      && CacheGrown(run.1, engines, all, buildFailures)
  {
    var counts := CountRun(ZeroEntries(all), engines, all, buildFailures, texts, language, iterations, synth).0;
    forall b
      ensures b in counts <==> b in all
      ensures b in counts ==>
        counts[b] == BenchmarkEntry(multiset(all)[b], Buildable(engines, b, buildFailures),
                                    b, texts, language, iterations, synth).(hasMean := false)
    {
      CountRunKeys(ZeroEntries(all), engines, all, buildFailures, texts, language, iterations, synth, b);
      if b in all {
        CountRunEntry(all, engines, all, buildFailures, texts, language, iterations, synth, b);
      }
    }
    CountRunCache(ZeroEntries(all), engines, all, buildFailures, texts, language, iterations, synth);
    LookupAllGrows(engines, all, buildFailures);
  }

  /** The statistics pass of `benchmark`, on the result's keys: an entry gets
      a mean exactly when it has timings; the counts are kept as they are. */
  method WithMeans(counts: map<string, BackendBenchmark>, keys: seq<string>) returns (results: map<string, BackendBenchmark>)
    requires forall b :: b in counts <==> b in keys
    ensures results.Keys == counts.Keys
    ensures forall b :: b in results ==>
      results[b] == counts[b].(hasMean := counts[b].timings > 0)
  {
    results := counts;
    var j := 0;
    while j < |keys|
      invariant 0 <= j <= |keys|
      invariant results.Keys == counts.Keys
      invariant forall b :: b in results ==>
        results[b] == if b in keys[..j] then counts[b].(hasMean := counts[b].timings > 0) else counts[b]
    {
      var b := keys[j];
      assert keys[..j + 1] == keys[..j] + [b];
      results := results[b := results[b].(hasMean := results[b].timings > 0)];
      j := j + 1;
    }
    assert keys[..j] == keys;
  }

  /** The two inner loops of `benchmark` for one built backend: every pass
      over every text records a timing or counts an error. */
  method RunPasses(stats: BackendBenchmark, backend: string, texts: seq<string>, language: string,
                   iterations: int, synth: PassSynth)
    returns (updated: BackendBenchmark)
    ensures updated == AfterPasses(stats, backend, texts, language, iterations, synth)
  {
    updated := stats;
    ghost var p := Passes(iterations);
    var j := 0;
    while j < |texts|
      invariant 0 <= j <= |texts|
      invariant updated.hasMean == stats.hasMean
      invariant updated.timings == stats.timings + Successes(backend, texts[..j], language, p, synth)
      invariant updated.errors == stats.errors + (j * p - Successes(backend, texts[..j], language, p, synth))
    {
      var before := updated;
      ghost var done := Successes(backend, texts[..j], language, p, synth);
      var k := 0;
      while k < iterations
        invariant 0 <= k <= p
        invariant updated == before.(timings := before.timings + PassSuccesses(backend, texts[j], language, k, synth),
                                     errors := before.errors + (k - PassSuccesses(backend, texts[j], language, k, synth)))
      {
        var outcome := synth(SynthesisRequest(backend, texts[j], language, None), k);
        if outcome.Ok? {
          updated := updated.(timings := updated.timings + 1);
        } else {
          updated := updated.(errors := updated.errors + 1);
        }
        k := k + 1;
      }
      ghost var here := PassSuccesses(backend, texts[j], language, p, synth);
      assert texts[..j + 1][..j] == texts[..j];
      assert Successes(backend, texts[..j + 1], language, p, synth) == done + here;
      assert (j + 1) * p - (done + here) == (j * p - done) + (p - here);
      j := j + 1;
    }
    assert texts[..j] == texts;
  }

  class TtsEngine {
    const defaultBackend: string
    const device: string
    /** `_engines`: backend name to its constructed engine. */
    var engines: map<string, BackendEngine>

    ghost predicate Valid()
      reads this
    {
      CacheValid(engines)
    }

    /** `TTSEngine(backend, device)`: nothing is constructed yet. */
    constructor (backend: string := "mms", device: string := "cuda")
      ensures Valid() && defaultBackend == backend && this.device == device && engines == map[]
    {
      defaultBackend := backend;
      this.device := device;
      engines := map[];
    }

    /** `_get_engine`: a cached engine is returned as is; otherwise a known
        backend is constructed and cached, and an unknown one or a raising
        constructor leaves the cache unchanged. */
    method GetEngine(backend: string, buildFailures: map<string, string>) returns (r: Result<BackendEngine>)
      requires Valid()
      modifies this`engines
      ensures Valid()
      ensures r == EngineFor(old(engines), backend, buildFailures)
      ensures engines == AfterLookup(old(engines), backend, buildFailures)
    {
      EngineForSpec(engines, backend, buildFailures);
      if backend !in engines {
        if backend !in Backends {
          return Err(UnknownBackendMessage(backend));
        }
        if backend in buildFailures {
          return Err(buildFailures[backend]);
        }
        engines := engines[backend := Build(backend)];
      }
      r := Ok(engines[backend]);
    }

    /** `synthesize`: resolves the backend, gets its engine and wraps the audio
        with the echoed request and the engine's sample rate; every error raises. */
    method Synthesize(text: string, buildFailures: map<string, string>, synth: SynthesisRequest -> Result<Audio>,
                      language: string := "ml", backend: Option<string> := None, outputPath: Option<string> := None)
      returns (r: Result<TtsResult>)
      requires Valid()
      modifies this`engines
      ensures Valid()
      ensures var b := ChosenBackend(backend, defaultBackend);
        && r == SynthesisOutcome(old(engines), b, text, language, outputPath, buildFailures, synth)
        && engines == AfterLookup(old(engines), b, buildFailures)
    {
      var b := ChosenBackend(backend, defaultBackend);
      var engine := GetEngine(b, buildFailures);
      if engine.Err? {
        return Err(engine.message);
      }
      var audio := synth(SynthesisRequest(b, text, language, outputPath));
      if audio.Err? {
        return Err(audio.message);
      }
      r := Ok(TtsResult(audio.value, b, language, SampleRate(engine.value), text));
    }

    /** `compare`: when an output directory is given it is created first, and
        an error there (`mkdirFailure`, what creating it raises) propagates
        before any backend is tried; otherwise one entry per requested backend,
        the synthesis result or None when it raised, with each backend's own
        output file. Each name is passed through `synthesize`, so an empty name
        synthesises with the default backend. */
    method Compare(text: string, buildFailures: map<string, string>, synth: SynthesisRequest -> Result<Audio>,
                   mkdirFailure: Option<string>, language: string := "ml", backends: Option<seq<string>> := None,
                   outputDir: Option<string> := None)
      returns (r: Result<map<string, Option<TtsResult>>>)
      requires Valid()
      modifies this`engines
      ensures Valid()
      ensures r.Err? <==> MakesDir(outputDir) && mkdirFailure.Some?
      ensures r.Err? ==> r.message == mkdirFailure.value && engines == old(engines)
      ensures r.Ok? ==> forall b :: b in r.value <==> b in RequestedBackends(backends)
      ensures r.Ok? ==> forall b :: b in r.value ==>
        r.value[b] == AsOption(SynthesisOutcome(old(engines), ChosenBackend(Some(b), defaultBackend), text, language,
                                                OutputPath(outputDir, b, language), buildFailures, synth))
      ensures r.Ok? ==> CacheGrown(engines, old(engines), Resolved(RequestedBackends(backends), defaultBackend), buildFailures)
    {
      if MakesDir(outputDir) && mkdirFailure.Some? {
        return Err(mkdirFailure.value);
      }
      var bs := RequestedBackends(backends);
      var results := CompareLoop(text, buildFailures, synth, language, bs, outputDir);
      CompareRunSpec(old(engines), bs, defaultBackend, text, language, outputDir, buildFailures, synth);
      r := Ok(results);
    }

    /** The loop of `compare` over the listed backends `bs`: each name's
        answer, or None when its synthesis raised. */
    method CompareLoop(text: string, buildFailures: map<string, string>, synth: SynthesisRequest -> Result<Audio>,
                       language: string, bs: seq<string>, outputDir: Option<string>)
      returns (results: map<string, Option<TtsResult>>)
      requires Valid()
      modifies this`engines
      ensures Valid()
      ensures (results, engines) == CompareRun(old(engines), bs, defaultBackend, text, language,
                                               outputDir, buildFailures, synth)
    {
      results := map[];
      var i := 0;
      while i < |bs|
        invariant 0 <= i <= |bs|
        invariant Valid()
        invariant (results, engines) == CompareRun(old(engines), bs[..i], defaultBackend, text, language,
                                                   outputDir, buildFailures, synth)
      {
        var b := bs[i];
        var one := Synthesize(text, buildFailures, synth, language, Some(b), OutputPath(outputDir, b, language));
        results := results[b := AsOption(one)];
        assert bs[..i + 1][..i] == bs[..i];
        i := i + 1;
      }
      assert bs[..i] == bs;
    }

    /** The counting loop of `benchmark` over the listed backends `bs`. */
    method CountRuns(bs: seq<string>, texts: seq<string>, buildFailures: map<string, string>,
                     synth: PassSynth, language: string, iterations: int)
      returns (counts: map<string, BackendBenchmark>)
      requires Valid()
      modifies this`engines
      ensures Valid()
      ensures (counts, engines) == CountRun(ZeroEntries(bs), old(engines), bs, buildFailures, texts, language, iterations, synth)
    {
      counts := map b | b in bs :: BackendBenchmark(0, 0, false);
      var i := 0;
      while i < |bs|
        invariant 0 <= i <= |bs|
        invariant Valid()
        invariant (counts, engines) == CountRun(ZeroEntries(bs), old(engines), bs[..i], buildFailures,
                                                texts, language, iterations, synth)
      {
        var b := bs[i];
        assert bs[..i + 1][..i] == bs[..i];
        var engine := GetEngine(b, buildFailures);
        if engine.Ok? && b in counts {
          var updated := RunPasses(counts[b], b, texts, language, iterations, synth);
          counts := counts[b := updated];
        }
        i := i + 1;
      }
      assert bs[..i] == bs;
    }

    /** `benchmark`: an entry per requested backend; a backend whose engine
        cannot be had is skipped; the statistics pass then marks which
        entries get a mean. */
    method Benchmark(texts: seq<string>, buildFailures: map<string, string>, synth: PassSynth,
                     language: string := "ml", backends: Option<seq<string>> := None, iterations: int := 3)
      returns (results: map<string, BackendBenchmark>)
      requires Valid()
      modifies this`engines
      ensures Valid()
      ensures forall b :: b in results <==> b in RequestedBackends(backends)
      ensures forall b :: b in results ==>
        results[b] == BenchmarkEntry(multiset(RequestedBackends(backends))[b], Buildable(old(engines), b, buildFailures),
                                     b, texts, language, iterations, synth)
      ensures CacheGrown(engines, old(engines), RequestedBackends(backends), buildFailures)
    {
      var bs := RequestedBackends(backends);
      var counts := CountRuns(bs, texts, buildFailures, synth, language, iterations);
      CountRunSpec(bs, old(engines), buildFailures, texts, language, iterations, synth);
      results := WithMeans(counts, bs);
    }
  }
}
