/**
 * The defensive model manager (`SafeLlamaServer`): an artifact gate in front
 * of the engine (the file exists, is at least 100 MiB and starts with the
 * GGUF magic), a memory gate of 6 GiB, a load that retries only when the
 * attempt itself throws, and a generator whose guards run in a fixed order
 * before it clamps its parameters and counts the request.
 *
 * `SafeLoad` and `SafeGenerate` say what `load_model` and `generate` do to
 * the manager's fields; the class `SafeLlamaServer` updates the fields in
 * place and is proved to follow them.
 */
module SafeManager {
  import opened Common
  import opened Text

  const MinModelSize: nat := 100 * MiB
  const MaxMemoryUsage: nat := 6 * GiB
  const MaxContextSize: nat := 4096
  const MaxBatchSize: nat := 256
  const MaxGenerateTokens: int := 1024
  const ModelName: string := "llama3-8b-instruct-safe"

  /** The ASCII bytes `GGUF`, the magic number a GGUF file starts with. */
  const GgufMagic: seq<byte> := [71, 71, 85, 70]

  /** `_check_model_integrity`: the file exists, is at least 100 MiB, can be opened, and its first 8 bytes start with `GGUF`. */
  function CheckModelIntegrity(f: FileInfo): (ok: bool)
    // reading only 8 bytes changes nothing: the verdict is the file's first four bytes against the magic
    ensures ok <==> f.present && f.readable && f.size >= 100 * 1024 * 1024
                    && |f.leading| >= 4 && f.leading[..4] == [71, 71, 85, 70]
  {
    var header := if |f.leading| <= 8 then f.leading else f.leading[..8];
    f.present && f.size >= MinModelSize && f.readable
    && |header| >= 4 && header[..4] == GgufMagic
  }

  /**
   * `_check_memory_usage`: the available memory in GiB against the 6 GiB
   * limit; None stands for psutil being unavailable, which passes.
   */
  function CheckMemoryUsage(available: Option<nat>): (ok: bool)
    // comparing `available / 1024**3` with 6 is comparing the byte count with 6·1024³
    ensures ok <==> available.None? || available.value >= 6 * 1024 * 1024 * 1024
    ensures available.Some? && available.value < MaxMemoryUsage ==> !ok
  {
    available.None? || available.value >= MaxMemoryUsage
  }

  /** The engine parameters `load_model` uses: `n_threads = min(2, os.cpu_count() or 2)`. */
  function SafeConfig(cpuCount: Option<nat>): (c: EngineConfig)
    ensures 1 <= c.nThreads <= 2
    ensures c.nCtx == MaxContextSize && c.nBatch == MaxBatchSize
  {
    EngineConfig(MaxContextSize, Min(2, OrDefault(cpuCount, 2)), MaxBatchSize)
  }

  /** What one load attempt does, as the engine and the load thread decide it. */
  datatype AttemptOutcome =
    | Constructed(loadTime: real, probe: Completion)  // the engine was built in time; `probe` answers the "Hi" check
    | ConstructRaised                                  // the constructor threw inside the worker, leaving `llm` None
    | TimedOut                                         // the worker was still running after the 60 s join
    | AttemptRaised                                    // an exception escaped the attempt block itself

  /**
   * Everything `load_model` reads besides the manager's own fields. Each
   * recursive call runs both gates again, so the file and the memory are
   * given per attempt, by the attempt's `retry_count`, like its outcome.
   */
  datatype LoadEnv = LoadEnv(
    file: nat -> FileInfo,
    availableMemory: nat -> Option<nat>,
    cpuCount: Option<nat>,
    attempt: nat -> AttemptOutcome)  // the outcome of the attempt made with a given retry_count

  /** The fields of a `SafeLlamaServer`, as a value. */
  datatype SafeState = SafeState(
    llm: Option<Engine>,
    modelLoaded: bool,
    loadTime: real,
    requestCount: nat,
    shutdown: bool)

  /** `model_loaded` is set exactly when an engine is held. */
  predicate Coherent(s: SafeState) {
    s.modelLoaded <==> s.llm.Some?
  }

  /** `unload_model`: drops the engine when there is one, otherwise changes nothing. */
  function Unload(s: SafeState): (r: SafeState)
    ensures r.llm.None?
    ensures s.llm.Some? ==> !r.modelLoaded
    ensures s.llm.None? ==> r == s
    ensures r.loadTime == s.loadTime && r.requestCount == s.requestCount && r.shutdown == s.shutdown
  {
    if s.llm.Some? then s.(llm := None, modelLoaded := false) else s
  }

  datatype LoadResult = LoadResult(ok: bool, state: SafeState, effects: seq<Effect>)

  /** The guards `load_model` applies before it makes an attempt. */
  predicate Rejected(env: LoadEnv, retryCount: nat, maxRetries: nat) {
    retryCount >= maxRetries || !CheckModelIntegrity(env.file(retryCount))
    || !CheckMemoryUsage(env.availableMemory(retryCount))
  }

  /** `load_model(model_path, retry_count, max_retries)`. */
  function SafeLoad(s: SafeState, path: string, env: LoadEnv, retryCount: nat, maxRetries: nat): (r: LoadResult)
    decreases maxRetries - retryCount
    // after shutdown nothing is attempted
    ensures s.shutdown ==> !r.ok && r.state == s && r.effects == []
    // a loaded model is reported at once, without a probe or a reconstruction
    ensures !s.shutdown && s.modelLoaded ==> r.ok && r.state == s && r.effects == []
    // the retry budget, the artifact gate and the memory gate reject before any construction
    ensures !s.shutdown && !s.modelLoaded && Rejected(env, retryCount, maxRetries)
            ==> !r.ok && r.state == s && r.effects == []
    // success means an engine is held, built from this file and the conservative configuration, and probed once
    ensures r.ok ==> r.state.modelLoaded
    ensures r.ok && Coherent(s) ==> r.state.llm.Some?
    ensures r.ok && !s.modelLoaded ==>
              r.state.llm == Some(Engine(path, SafeConfig(env.cpuCount)))
              && |r.effects| >= 2 && r.effects[|r.effects| - 1] == Probe(true)
              && r.effects[|r.effects| - 2] == Construct(SafeConfig(env.cpuCount))
    // a failure from a coherent unloaded state leaves no engine behind
    ensures Coherent(s) && !r.ok && !s.shutdown ==> r.state.llm.None? && !r.state.modelLoaded
    ensures Coherent(s) ==> Coherent(r.state)
    ensures r.state.requestCount == s.requestCount && r.state.shutdown == s.shutdown
  {
    if s.shutdown then LoadResult(false, s, [])
    else if s.modelLoaded then LoadResult(true, s, [])
    else if Rejected(env, retryCount, maxRetries) then LoadResult(false, s, [])
    else
      var config := SafeConfig(env.cpuCount);
      match env.attempt(retryCount)
      case TimedOut => LoadResult(false, Unload(s), [Construct(config)])
      case ConstructRaised => LoadResult(false, Unload(s), [Construct(config)])
      case Constructed(t, probe) =>
        var loaded := s.(llm := Some(Engine(path, config)), modelLoaded := true, loadTime := t);
        if HasChoice(probe) then LoadResult(true, loaded, [Construct(config), Probe(true)])
        else LoadResult(false, Unload(loaded), [Construct(config), Probe(false)])
      case AttemptRaised =>
        var cleared := Unload(s);
        if retryCount + 1 < maxRetries then
          var rest := SafeLoad(cleared, path, env, retryCount + 1, maxRetries);
          LoadResult(rest.ok, rest.state, [Sleep((retryCount + 1) * 5)] + rest.effects)
        else LoadResult(false, cleared, [])
  }

  /**
   * Only an exception escaping the attempt block retries, and such an
   * attempt never constructs: a whole load constructs the engine at most
   * once, and the delays it sleeps follow the schedule from the start.
   */
  lemma {:induction false} SafeLoadSchedule(s: SafeState, path: string, env: LoadEnv, retryCount: nat, maxRetries: nat)
    ensures var r := SafeLoad(s, path, env, retryCount, maxRetries);
      Constructions(r.effects) <= 1 && IsPrefixOf(Delays(r.effects), Backoff(retryCount, maxRetries, 5))
    decreases maxRetries - retryCount
  {
    var r := SafeLoad(s, path, env, retryCount, maxRetries);
    if !s.shutdown && !s.modelLoaded && !Rejected(env, retryCount, maxRetries)
       && env.attempt(retryCount).AttemptRaised? && retryCount + 1 < maxRetries {
      var rest := SafeLoad(Unload(s), path, env, retryCount + 1, maxRetries);
      assert r.effects == [Sleep((retryCount + 1) * 5)] + rest.effects;
      SafeLoadSchedule(Unload(s), path, env, retryCount + 1, maxRetries);
      SleepThenSchedule(rest.effects, retryCount, maxRetries);
    } else {
      assert Delays(r.effects) == [] by {
        assert forall k :: 0 <= k < |r.effects| ==> !r.effects[k].Sleep?;
        NoSleepNoDelays(r.effects);
      }
    }
  }

  /** A sleep of the next delay before a rest that keeps the schedule from the next attempt on keeps it from this one. */
  lemma SleepThenSchedule(rest: seq<Effect>, retryCount: nat, maxRetries: nat)
    requires retryCount + 1 < maxRetries
    requires Constructions(rest) <= 1 && IsPrefixOf(Delays(rest), Backoff(retryCount + 1, maxRetries, 5))
    ensures var e := [Sleep((retryCount + 1) * 5)] + rest;
      Constructions(e) <= 1 && IsPrefixOf(Delays(e), Backoff(retryCount, maxRetries, 5))
  {
    var d := (retryCount + 1) * 5;
    ConstructionsAppend([Sleep(d)], rest);
    DelaysAppend([Sleep(d)], rest);
    assert Delays([Sleep(d)]) == [d];
  }

  /**
   * An attempt block that keeps throwing is tried once per remaining
   * attempt: while both gates keep passing, the load never builds an engine
   * and sleeps the whole (k+1)·5 schedule.
   */
  lemma {:induction false} PersistentRaise(s: SafeState, path: string, env: LoadEnv, retryCount: nat, maxRetries: nat)
    requires !s.shutdown && !s.modelLoaded && retryCount < maxRetries
    requires forall k :: retryCount <= k < maxRetries ==>
               !Rejected(env, k, maxRetries) && env.attempt(k).AttemptRaised?
    ensures var r := SafeLoad(s, path, env, retryCount, maxRetries);
      !r.ok && Constructions(r.effects) == 0 && Delays(r.effects) == Backoff(retryCount, maxRetries, 5)
    decreases maxRetries - retryCount
  {
    var r := SafeLoad(s, path, env, retryCount, maxRetries);
    assert !Rejected(env, retryCount, maxRetries) && env.attempt(retryCount).AttemptRaised?;
    if retryCount + 1 < maxRetries {
      var d := (retryCount + 1) * 5;
      var rest := SafeLoad(Unload(s), path, env, retryCount + 1, maxRetries);
      assert r.effects == [Sleep(d)] + rest.effects;
      PersistentRaise(Unload(s), path, env, retryCount + 1, maxRetries);
      ConstructionsAppend([Sleep(d)], rest.effects);
      DelaysAppend([Sleep(d)], rest.effects);
      assert Delays([Sleep(d)]) == [d];
    } else {
      assert r.effects == [];
    }
  }

  /** A gate that fails after the sleep (the file changed, memory dropped) ends the load: one sleep, nothing built. */
  lemma GateFailsOnRetry(s: SafeState, path: string, env: LoadEnv, retryCount: nat, maxRetries: nat)
    requires !s.shutdown && !s.modelLoaded && retryCount + 1 < maxRetries
    requires !Rejected(env, retryCount, maxRetries) && env.attempt(retryCount).AttemptRaised?
    requires !CheckModelIntegrity(env.file(retryCount + 1)) || !CheckMemoryUsage(env.availableMemory(retryCount + 1))
    ensures var r := SafeLoad(s, path, env, retryCount, maxRetries);
      !r.ok && r.effects == [Sleep((retryCount + 1) * 5)] && r.state.llm.None?
  {
    assert [Sleep((retryCount + 1) * 5)] + [] == [Sleep((retryCount + 1) * 5)];
  }

  /** With the default budget of two attempts, a load sleeps at most once, for 5 seconds. */
  lemma DefaultSchedule(s: SafeState, path: string, env: LoadEnv)
    ensures var ds := Delays(SafeLoad(s, path, env, 0, 2).effects);
      ds == [] || ds == [5]
  {
    SafeLoadSchedule(s, path, env, 0, 2);
    assert Backoff(1, 2, 5) == [];
  }

  /**
   * An attempt whose engine fails the probe, or whose worker throws or times
   * out, ends the load: it returns False at once, with no delay and no
   * second attempt. The load time measured for a failed probe is kept.
   */
  lemma NoRetryAfterConstruction(s: SafeState, path: string, env: LoadEnv, retryCount: nat, maxRetries: nat)
    requires !s.shutdown && !s.modelLoaded && !Rejected(env, retryCount, maxRetries)
    requires env.attempt(retryCount).Constructed? ==> !HasChoice(env.attempt(retryCount).probe)
    requires !env.attempt(retryCount).AttemptRaised?
    ensures var r := SafeLoad(s, path, env, retryCount, maxRetries);
      !r.ok && Delays(r.effects) == [] && Constructions(r.effects) == 1
      && (env.attempt(retryCount).Constructed? ==> r.state.loadTime == env.attempt(retryCount).loadTime)
  {
    var r := SafeLoad(s, path, env, retryCount, maxRetries);
    var config := SafeConfig(env.cpuCount);
    if env.attempt(retryCount).Constructed? {
      assert r.effects == [Construct(config), Probe(false)];
      assert r.effects[1..] == [Probe(false)];
    } else {
      assert r.effects == [Construct(config)];
    }
  }

  // ---------------------------------------------------------------------------
  // Generation

  datatype GenOutcome = GenOutcome(result: Result<Generation, GenError>, state: SafeState, call: Option<EngineCall>)

  /** The guards `generate` applies before it counts the request. */
  function GenerateGuard(s: SafeState, prompt: string): (e: Option<GenError>)
    ensures e == Some(ShuttingDown) <==> s.shutdown
    ensures e == Some(NotLoaded) <==> !s.shutdown && !(s.modelLoaded && s.llm.Some?)
    ensures e == Some(InvalidPrompt) <==> !s.shutdown && s.modelLoaded && s.llm.Some? && Strip(prompt) == []
    ensures e.None? <==> !s.shutdown && s.modelLoaded && s.llm.Some? && Strip(prompt) != []
  {
    if s.shutdown then Some(ShuttingDown)
    else if !(s.modelLoaded && s.llm.Some?) then Some(NotLoaded)
    else if Strip(prompt) == [] then Some(InvalidPrompt)
    else None
  }

  /**
   * `generate(prompt, max_tokens, temperature)`; `probe` is the engine's
   * answer to the integrity check and `answer` its answer to the prompt.
   */
  function SafeGenerate(s: SafeState, prompt: string, maxTokens: int, temperature: real,
                        probe: Completion, answer: Completion): (r: GenOutcome)
    // a rejected call changes nothing and never reaches the engine
    ensures GenerateGuard(s, prompt).Some? ==>
              r.result == Err(GenerateGuard(s, prompt).value) && r.state == s && r.call.None?
    // an accepted call is counted exactly once, whatever the engine then does
    ensures GenerateGuard(s, prompt).None? ==> r.state == s.(requestCount := s.requestCount + 1)
    // the prompt reaches the engine only after a passed probe, with clamped parameters
    ensures r.call.Some? <==> GenerateGuard(s, prompt).None? && HasChoice(probe)
    ensures r.call.Some? ==>
              r.call.value.prompt == prompt && 1 <= r.call.value.maxTokens <= MaxGenerateTokens
              && 0.0 <= r.call.value.temperature <= 1.0 && r.call.value.stop == ["\n\n", "}"]
              && (1 <= maxTokens <= MaxGenerateTokens ==> r.call.value.maxTokens == maxTokens)
              && (0.0 <= temperature <= 1.0 ==> r.call.value.temperature == temperature)
    // success needs both the probe and the answer to carry a choice
    ensures r.result.Ok? <==> GenerateGuard(s, prompt).None? && HasChoice(probe) && HasChoice(answer)
    ensures r.result.Err? && GenerateGuard(s, prompt).None? ==> r.result.error == GenerationFailed
    ensures r.result.Ok? ==>
              r.result.value.text == Strip(answer.choices[0]) && r.result.value.tokens == answer.tokens
              && r.result.value.requestId == s.requestCount + 1
  {
    match GenerateGuard(s, prompt)
    case Some(e) => GenOutcome(Err(e), s, None)
    case None => Counted(s.(requestCount := s.requestCount + 1), prompt, maxTokens, temperature, probe, answer)
  }

  /** The part of `generate` after the request has been counted. */
  function Counted(s: SafeState, prompt: string, maxTokens: int, temperature: real,
                   probe: Completion, answer: Completion): GenOutcome
  {
    if !HasChoice(probe) then GenOutcome(Err(GenerationFailed), s, None)
    else
      var call := EngineCall(prompt, ClampInt(maxTokens, 1, MaxGenerateTokens), ClampReal(temperature, 0.0, 1.0),
                             ["\n\n", "}"]);
      if !HasChoice(answer) then GenOutcome(Err(GenerationFailed), s, Some(call))
      else GenOutcome(Ok(Generation(Strip(answer.choices[0]), answer.tokens, s.requestCount, ModelName)), s, Some(call))
  }

  /** `shutdown()` on the value view. */
  function ShutDown(s: SafeState): (r: SafeState)
    ensures r.shutdown && r.llm.None?
    ensures Coherent(s) ==> Coherent(r)
    ensures r.requestCount == s.requestCount && r.loadTime == s.loadTime
  {
    Unload(s.(shutdown := true))
  }

  /** After `shutdown`, every load is refused and every generation raises, and neither changes anything. */
  lemma AfterShutdown(s: SafeState, path: string, env: LoadEnv, retryCount: nat, maxRetries: nat,
                      prompt: string, maxTokens: int, temperature: real, probe: Completion, answer: Completion)
    ensures var down := ShutDown(s);
      var l := SafeLoad(down, path, env, retryCount, maxRetries);
      var g := SafeGenerate(down, prompt, maxTokens, temperature, probe, answer);
      !l.ok && l.state == down && g.result == Err(ShuttingDown) && g.state == down
  {
  }

  // ---------------------------------------------------------------------------
  // The manager object

  datatype ServerStatus = ServerStatus(
    modelLoaded: bool, requestCount: nat, loadTime: real, maxContextSize: nat, maxBatchSize: nat)

  class SafeLlamaServer {
    var llm: Option<Engine>
    var modelLoaded: bool
    var loadTime: real
    var requestCount: nat
    var shutdownFlag: bool

    function Snapshot(): SafeState
      reads this
    {
      SafeState(llm, modelLoaded, loadTime, requestCount, shutdownFlag)
    }

    predicate Valid()
      reads this
    {
      Coherent(Snapshot())
    }

    constructor ()
      ensures Valid()
      ensures Snapshot() == SafeState(None, false, 0.0, 0, false)
    {
      llm, modelLoaded, loadTime, requestCount, shutdownFlag := None, false, 0.0, 0, false;
    }

    method UnloadModel()
      requires Valid()
      modifies this
      ensures Valid()
      ensures Snapshot() == Unload(old(Snapshot()))
    {
      if llm.Some? {
        llm := None;
        modelLoaded := false;
      }
    }

    /** `verify_model_integrity()`, with `probe` the engine's answer to the "Hi" request. */
    method VerifyModelIntegrity(probe: Completion) returns (ok: bool)
      ensures ok <==> modelLoaded && llm.Some? && HasChoice(probe)
    {
      if !modelLoaded || llm.None? {
        return false;
      }
      ok := HasChoice(probe);
    }

    method LoadModel(path: string, env: LoadEnv, retryCount: nat, maxRetries: nat)
      returns (ok: bool, effects: seq<Effect>)
      requires Valid()
      modifies this
      ensures Valid()
      ensures SafeLoad(old(Snapshot()), path, env, retryCount, maxRetries) == LoadResult(ok, Snapshot(), effects)
      decreases maxRetries - retryCount
    {
      if shutdownFlag {
        return false, [];
      }
      if modelLoaded {
        return true, [];
      }
      if retryCount >= maxRetries {
        return false, [];
      }
      if !CheckModelIntegrity(env.file(retryCount)) {
        return false, [];
      }
      if !CheckMemoryUsage(env.availableMemory(retryCount)) {
        return false, [];
      }
      var config := SafeConfig(env.cpuCount);
      match env.attempt(retryCount)
      case Constructed(t, probe) =>
        llm := Some(Engine(path, config));
        loadTime := t;
        modelLoaded := true;
        var passed := VerifyModelIntegrity(probe);
        if passed {
          return true, [Construct(config), Probe(true)];
        }
        UnloadModel();
        return false, [Construct(config), Probe(false)];
      case ConstructRaised =>
        UnloadModel();
        return false, [Construct(config)];
      case TimedOut =>
        UnloadModel();
        return false, [Construct(config)];
      case AttemptRaised =>
        UnloadModel();
        if retryCount + 1 < maxRetries {
          var rest;
          ok, rest := LoadModel(path, env, retryCount + 1, maxRetries);
          return ok, [Sleep((retryCount + 1) * 5)] + rest;
        }
        return false, [];
    }

    method Generate(prompt: string, maxTokens: int, temperature: real, probe: Completion, answer: Completion)
      returns (result: Result<Generation, GenError>, call: Option<EngineCall>)
      requires Valid()
      modifies this
      ensures Valid()
      ensures SafeGenerate(old(Snapshot()), prompt, maxTokens, temperature, probe, answer)
              == GenOutcome(result, Snapshot(), call)
    {
      ghost var s0 := Snapshot();
      var guard := GenerateGuard(Snapshot(), prompt);
      if guard.Some? {
        return Err(guard.value), None;
      }
      requestCount := requestCount + 1;
      assert Snapshot() == s0.(requestCount := s0.requestCount + 1);
      result, call := GenerateCounted(prompt, maxTokens, temperature, probe, answer);
    }

    /** The part of `generate` after the request has been counted: the probe, then the engine call. */
    method GenerateCounted(prompt: string, maxTokens: int, temperature: real, probe: Completion, answer: Completion)
      returns (result: Result<Generation, GenError>, call: Option<EngineCall>)
      requires Valid() && modelLoaded && llm.Some?
      ensures GenOutcome(result, Snapshot(), call) == Counted(Snapshot(), prompt, maxTokens, temperature, probe, answer)
    {
      var passed := VerifyModelIntegrity(probe);
      if !passed {
        return Err(GenerationFailed), None;
      }
      var tokens := ClampInt(maxTokens, 1, MaxGenerateTokens);
      var temp := ClampReal(temperature, 0.0, 1.0);
      call := Some(EngineCall(prompt, tokens, temp, ["\n\n", "}"]));
      if !HasChoice(answer) {
        return Err(GenerationFailed), call;
      }
      var text := Strip(answer.choices[0]);
      result := Ok(Generation(text, answer.tokens, requestCount, ModelName));
    }

    method Shutdown()
      requires Valid()
      modifies this
      ensures Valid()
      ensures Snapshot() == ShutDown(old(Snapshot()))
    {
      shutdownFlag := true;
      UnloadModel();
    }

    /** `get_status()`: the loaded flag agrees with the engine, and the sizes are the ones every load uses. */
    function GetStatus(): (r: ServerStatus)
      reads this
      ensures Valid() ==> (r.modelLoaded <==> llm.Some?)
      ensures forall cpus :: r.maxContextSize == SafeConfig(cpus).nCtx && r.maxBatchSize == SafeConfig(cpus).nBatch
      ensures r.requestCount == requestCount
    {
      ServerStatus(modelLoaded, requestCount, loadTime, MaxContextSize, MaxBatchSize)
    }
  }
}
