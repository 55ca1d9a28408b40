/**
 * The production server: a static table of four small models, ordered from
 * the lightest to the heaviest; a selection that keeps the models that fit
 * in the available memory and whose file exists and picks the last of them;
 * a load that records the chosen descriptor before it builds the engine and
 * runs a self-test; the `/models` listing; and the YES/SIM classification of
 * `/validate`.
 */
module Production {
  import opened Common
  import opened Text

  /**
   * One entry of `SUPPORTED_MODELS`. The memory requirement is kept in
   * tenths of a gigabyte (1024³ bytes), so 1.5 GB is 15.
   */
  datatype ModelConfig = ModelConfig(
    name: string, path: string, nCtx: nat, nThreads: nat, nBatch: nat, memoryTenths: nat, description: string)

  const SupportedModels: seq<ModelConfig> := [
    ModelConfig("tinyllama", "models/tinyllama-1.1b-chat-v1.0.Q4_K_M.gguf", 2048, 2, 64, 15,
                "TinyLlama 1.1B - Ultra rápido, baixo consumo de RAM"),
    ModelConfig("qwen-1.8b", "models/qwen1.5-1.8b-chat.Q4_K_M.gguf", 2048, 2, 128, 20,
                "Qwen 1.8B - Bom para raciocínio numérico"),
    ModelConfig("gemma-2b", "models/gemma-2b-it.Q4_K_M.gguf", 2048, 3, 128, 25,
                "Gemma 2B - Equilibrado, bom em PT-BR"),
    ModelConfig("phi3-mini", "models/phi-3-mini-4k-instruct.Q4_K_M.gguf", 2048, 3, 128, 35,
                "Phi-3 Mini - Atual, boa qualidade geral")
  ]

  /** `memory_requirement_gb <= available_memory`, with the available memory in bytes. */
  predicate FitsIn(m: ModelConfig, availableBytes: nat) {
    m.memoryTenths * GiB <= 10 * availableBytes
  }

  /** The selection filter: the model fits and its file exists. */
  function CanLoad(m: ModelConfig, availableBytes: nat, present: set<string>): (ok: bool)
    // the requirement in GB against `available / 1024**3`, computed exactly
    ensures ok <==> (m.memoryTenths as real) / 10.0 <= (availableBytes as real) / (GiB as real) && m.path in present
  {
    TenthsAgainstBytes(m.memoryTenths, availableBytes);
    FitsIn(m, availableBytes) && m.path in present
  }

  lemma TenthsAgainstBytes(tenths: nat, bytes: nat)
    ensures tenths * GiB <= 10 * bytes <==> (tenths as real) / 10.0 <= (bytes as real) / (GiB as real)
  {
    var t, b, g := tenths as real, bytes as real, GiB as real;
    assert g > 0.0;
    assert (t / 10.0) * (10.0 * g) == t * g;
    assert (b / g) * (10.0 * g) == 10.0 * b;
    assert t / 10.0 <= b / g <==> (t / 10.0) * (10.0 * g) <= (b / g) * (10.0 * g);
  }

  /** The descriptors that pass the filter, in table order. */
  function Suitable(models: seq<ModelConfig>, availableBytes: nat, present: set<string>): (r: seq<ModelConfig>)
    ensures |r| <= |models|
    ensures forall k :: 0 <= k < |r| ==> CanLoad(r[k], availableBytes, present) && r[k] in models
  {
    if |models| == 0 then []
    else Suitable(models[..|models| - 1], availableBytes, present)
         + (if CanLoad(models[|models| - 1], availableBytes, present) then [models[|models| - 1]] else [])
  }

  /** The model `select_best_model` picks: the last suitable one. */
  function Best(models: seq<ModelConfig>, availableBytes: nat, present: set<string>): Option<ModelConfig> {
    var s := Suitable(models, availableBytes, present);
    if |s| == 0 then None else Some(s[|s| - 1])
  }

  /** `select_best_model()`, over a descriptor table, the available memory and the set of existing files. */
  method SelectBestModel(models: seq<ModelConfig>, availableBytes: nat, present: set<string>)
    returns (best: Option<ModelConfig>)
    ensures best == Best(models, availableBytes, present)
  {
    var suitable: seq<ModelConfig> := [];
    var i := 0;
    while i < |models|
      invariant 0 <= i <= |models|
      invariant suitable == Suitable(models[..i], availableBytes, present)
    {
      SuitableStep(models, i, availableBytes, present);
      if FitsIn(models[i], availableBytes) {
        if models[i].path in present {
          suitable := suitable + [models[i]];
        }
      }
      i := i + 1;
    }
    assert models[..i] == models;
    if |suitable| == 0 {
      return None;
    }
    best := Some(suitable[|suitable| - 1]);
  }

  /** The filter over one more descriptor: the earlier result, then that descriptor if it passes. */
  lemma SuitableStep(models: seq<ModelConfig>, i: nat, availableBytes: nat, present: set<string>)
    requires i < |models|
    ensures Suitable(models[..i + 1], availableBytes, present)
            == Suitable(models[..i], availableBytes, present)
               + (if CanLoad(models[i], availableBytes, present) then [models[i]] else [])
  {
    assert models[..i + 1][..i] == models[..i];
    assert models[..i + 1][i] == models[i];
  }

  /** Nothing is selected exactly when no descriptor passes the filter. */
  lemma {:induction false} NoneIffNothingFits(models: seq<ModelConfig>, availableBytes: nat, present: set<string>)
    ensures Best(models, availableBytes, present).None?
            <==> forall k :: 0 <= k < |models| ==> !CanLoad(models[k], availableBytes, present)
    decreases |models|
  {
    if |models| > 0 {
      var init := models[..|models| - 1];
      NoneIffNothingFits(init, availableBytes, present);
      assert forall k :: 0 <= k < |init| ==> init[k] == models[k];
    }
  }

  /**
   * The selected descriptor passes the filter, and every descriptor after
   * it in the table fails it: it is the last qualifying one.
   */
  lemma {:induction false} SelectedIsLastFitting(models: seq<ModelConfig>, availableBytes: nat, present: set<string>)
    requires Best(models, availableBytes, present).Some?
    ensures var b := Best(models, availableBytes, present).value;
      CanLoad(b, availableBytes, present)
      && exists i :: 0 <= i < |models| && models[i] == b
                     && forall j :: i < j < |models| ==> !CanLoad(models[j], availableBytes, present)
  {
    var i := LastFittingIndex(models, availableBytes, present);
  }

  /** The position of the selected descriptor: it passes the filter and every later one fails it. */
  lemma {:induction false} LastFittingIndex(models: seq<ModelConfig>, availableBytes: nat, present: set<string>)
    returns (i: nat)
    requires Best(models, availableBytes, present).Some?
    ensures i < |models| && models[i] == Best(models, availableBytes, present).value
    ensures CanLoad(models[i], availableBytes, present)
    ensures forall j :: i < j < |models| ==> !CanLoad(models[j], availableBytes, present)
    decreases |models|
  {
    var last := models[|models| - 1];
    var init := models[..|models| - 1];
    if CanLoad(last, availableBytes, present) {
      i := |models| - 1;
    } else {
      assert Suitable(models, availableBytes, present) == Suitable(init, availableBytes, present);
      i := LastFittingIndex(init, availableBytes, present);
      assert models[i] == init[i];
      forall j | i < j < |models| ensures !CanLoad(models[j], availableBytes, present) {
        if j < |init| {
          assert models[j] == init[j];
        }
      }
    }
  }

  /** With 2.2 GB available and every file present, the table yields `qwen-1.8b`. */
  lemma SelectsQwenAt2Point2(present: set<string>)
    requires forall k :: 0 <= k < |SupportedModels| ==> SupportedModels[k].path in present
    ensures Best(SupportedModels, 22 * GiB / 10, present).Some?
    ensures Best(SupportedModels, 22 * GiB / 10, present).value.name == "qwen-1.8b"
  {
    var avail := 22 * GiB / 10;
    var m := SupportedModels;
    assert CanLoad(m[0], avail, present) && CanLoad(m[1], avail, present);
    assert !FitsIn(m[2], avail) && !FitsIn(m[3], avail);
    assert m[..1][..0] == [] && m[..2][..1] == m[..1] && m[..3][..2] == m[..2] && m[..4][..3] == m[..3];
    assert Suitable(m[..1], avail, present) == [m[0]];
    assert Suitable(m[..2], avail, present) == [m[0], m[1]];
    assert Suitable(m[..3], avail, present) == [m[0], m[1]];
    assert m[..4] == m;
    assert Suitable(m, avail, present) == [m[0], m[1]];
  }

  // ---------------------------------------------------------------------------
  // /models

  /** One entry of the `/models` listing. */
  datatype ModelInfo = ModelInfo(name: string, fileExists: bool, canLoad: bool, isCurrent: bool)

  function Info(m: ModelConfig, availableBytes: nat, present: set<string>, current: Option<ModelConfig>): (i: ModelInfo)
    ensures i.canLoad == CanLoad(m, availableBytes, present)
    ensures i.isCurrent <==> current.Some? && current.value.name == m.name
    ensures i.fileExists <==> m.path in present
  {
    ModelInfo(m.name, m.path in present, FitsIn(m, availableBytes) && m.path in present,
              current.Some? && current.value.name == m.name)
  }

  /** The `/models` listing: one entry per descriptor, in table order. */
  function ListModels(models: seq<ModelConfig>, availableBytes: nat, present: set<string>, current: Option<ModelConfig>)
    : (r: seq<ModelInfo>)
    ensures |r| == |models|
    ensures forall k :: 0 <= k < |r| ==> r[k] == Info(models[k], availableBytes, present, current)
  {
    seq(|models|, k requires 0 <= k < |models| => Info(models[k], availableBytes, present, current))
  }

  /** The listing marks a model loadable exactly when the selection filter keeps it, so a selection exists iff some entry is loadable. */
  lemma ListingAgreesWithSelection(models: seq<ModelConfig>, availableBytes: nat, present: set<string>,
                                   current: Option<ModelConfig>)
    ensures var l := ListModels(models, availableBytes, present, current);
      Best(models, availableBytes, present).Some? <==> exists k :: 0 <= k < |l| && l[k].canLoad
  {
    NoneIffNothingFits(models, availableBytes, present);
    var l := ListModels(models, availableBytes, present, current);
    if Best(models, availableBytes, present).Some? {
      var k :| 0 <= k < |models| && CanLoad(models[k], availableBytes, present);
      assert l[k].canLoad;
    }
  }

  // ---------------------------------------------------------------------------
  // Loading and cleanup

  /** The engine parameters a descriptor prescribes. */
  function EngineFor(m: ModelConfig): (e: Engine)
    ensures e.path == m.path && e.config == EngineConfig(m.nCtx, m.nThreads, m.nBatch)
  {
    Engine(m.path, EngineConfig(m.nCtx, m.nThreads, m.nBatch))
  }

  /** The fields of a `ProductionLLMServer`, as a value. */
  datatype ProdState = ProdState(model: Option<Engine>, currentConfig: Option<ModelConfig>)

  /** `load_model()`: its answer and the server afterwards. */
  function ProdLoad(s: ProdState, availableBytes: nat, present: set<string>, build: BuildOutcome)
    : (r: (bool, ProdState, seq<Effect>))
    // no selection: nothing changes and nothing is built
    ensures Best(SupportedModels, availableBytes, present).None? ==> !r.0 && r.1 == s && r.2 == []
    // a selection is built exactly once, with the parameters of its descriptor
    ensures Best(SupportedModels, availableBytes, present).Some? ==>
              r.2 == [Construct(EngineFor(Best(SupportedModels, availableBytes, present).value).config)]
    // a selection is recorded before loading, and stays recorded whatever the load does
    ensures Best(SupportedModels, availableBytes, present).Some? ==>
              r.1.currentConfig == Best(SupportedModels, availableBytes, present)
    // success: the engine of the selected descriptor is held and its self-test gave a response with "choices"
    ensures r.0 <==> Best(SupportedModels, availableBytes, present).Some? && build.Built? && build.selfTest.Answered?
    ensures r.0 ==> r.1.model == Some(EngineFor(Best(SupportedModels, availableBytes, present).value))
    // a self-test without "choices" fails the load but keeps the new engine
    ensures Best(SupportedModels, availableBytes, present).Some? && build.Built? && build.selfTest.Malformed?
            ==> r.1.model == Some(EngineFor(Best(SupportedModels, availableBytes, present).value))
    // an exception during the build or the self-test drops whatever engine was held
    ensures Best(SupportedModels, availableBytes, present).Some? && (build.BuildRaised? || build.selfTest.Raised?)
            ==> r.1.model.None?
  {
    match Best(SupportedModels, availableBytes, present)
    case None => (false, s, [])
    case Some(m) =>
      var (ok, model) := BuildAndTest(EngineFor(m), build);
      (ok, ProdState(model, Some(m)), [Construct(EngineFor(m).config)])
  }

  // ---------------------------------------------------------------------------
  // /validate

  /** The answer `/validate` gives: status code, match flag, confidence, and the model used on success. */
  datatype ValidateResponse = ValidateResponse(code: nat, matched: bool, confidence: real, modelUsed: Option<string>)

  /** `'YES' in answer or 'SIM' in answer`, after `strip().upper()`. */
  function ClassifyAnswer(text: string): (r: (bool, real))
    ensures r.0 <==> Contains(Upper(Strip(text)), "YES") || Contains(Upper(Strip(text)), "SIM")
    ensures r.1 == (if r.0 then 0.9 else 0.1)
  {
    var answer := Upper(Strip(text));
    var matched := Contains(answer, "YES") || Contains(answer, "SIM");
    (matched, if matched then 0.9 else 0.1)
  }

  /** The classification ignores letter case: a lowercase "yes" or "sim" matches as well. */
  lemma ClassifyIgnoresCase(text: string)
    ensures ClassifyAnswer(Lower(text)) == ClassifyAnswer(text)
  {
    StripLower(text);
    UpperLower(Strip(text));
  }

  /** The prompt values: `[:50]` for tinyllama, `[:100]` for every other model. */
  function PromptValues(model: string, csv: string, web: string): (r: (string, string))
    // each value is its own first min(len, n) characters
    ensures var n := if model == "tinyllama" then 50 else 100;
      |r.0| == Min(|csv|, n) && r.0 == csv[..|r.0|] && |r.1| == Min(|web|, n) && r.1 == web[..|r.1|]
  {
    var n := if model == "tinyllama" then 50 else 100;
    (Take(csv, n), Take(web, n))
  }

  /**
   * `/validate`. `body` is the decoded request (None when it is missing or
   * empty), `answer` the engine's completion for the prompt; `config` is
   * the recorded descriptor.
   */
  function Validate(s: ProdState, body: Option<map<string, string>>, answer: Completion): (r: ValidateResponse)
    // with no model loaded the body is not even read
    ensures s.model.None? ==> r == ValidateResponse(503, false, 0.0, None)
    ensures s.model.Some? && body.None? ==> r == ValidateResponse(400, false, 0.0, None)
    ensures r.code == 200 <==> s.model.Some? && body.Some? && s.currentConfig.Some? && HasChoice(answer)
    ensures r.code == 200 ==> r.modelUsed == Some(s.currentConfig.value.name)
                              && r.matched == ClassifyAnswer(answer.choices[0]).0
                              && r.confidence == (if r.matched then 0.9 else 0.1)
    ensures r.code != 200 ==> !r.matched && r.confidence == 0.0
  {
    if s.model.None? then ValidateResponse(503, false, 0.0, None)
    else if body.None? then ValidateResponse(400, false, 0.0, None)
    // a missing descriptor makes `current_model_config.name` raise, which the handler turns into a 500
    else if s.currentConfig.None? then ValidateResponse(500, false, 0.0, None)
    else if !HasChoice(answer) then ValidateResponse(500, false, 0.0, None)
    else
      var (matched, confidence) := ClassifyAnswer(answer.choices[0]);
      ValidateResponse(200, matched, confidence, Some(s.currentConfig.value.name))
  }

  // ---------------------------------------------------------------------------
  // The server object

  class ProductionLLMServer {
    var model: Option<Engine>
    var currentModelConfig: Option<ModelConfig>

    function Snapshot(): ProdState
      reads this
    {
      ProdState(model, currentModelConfig)
    }

    constructor ()
      ensures Snapshot() == ProdState(None, None)
    {
      model, currentModelConfig := None, None;
    }

    method LoadModel(availableBytes: nat, present: set<string>, build: BuildOutcome)
      returns (ok: bool, effects: seq<Effect>)
      modifies this
      ensures (ok, Snapshot(), effects) == ProdLoad(old(Snapshot()), availableBytes, present, build)
    {
      var config := SelectBestModel(SupportedModels, availableBytes, present);
      if config.None? {
        return false, [];
      }
      currentModelConfig := config;
      effects := [Construct(EngineFor(config.value).config)];
      match build {
        case BuildRaised =>
          // the context manager drops the engine held from before and re-raises
          model := None;
          ok := false;
        case Built(test) =>
          model := Some(EngineFor(config.value));
          match test {
            case Answered(_, _) =>
              ok := true;
            case Malformed =>
              ok := false;
            case Raised(_) =>
              model := None;
              ok := false;
          }
      }
    }

    /** `cleanup()`: drops the engine if one is held; the recorded descriptor stays. */
    method Cleanup()
      modifies this
      ensures model.None? && currentModelConfig == old(currentModelConfig)
    {
      if model.Some? {
        model := None;
      }
    }
  }
}
