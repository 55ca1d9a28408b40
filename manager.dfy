/**
 * The plain model manager (`LlamaServer` of the modular server): a load that
 * first re-checks an engine it already holds, refuses a missing file, sizes
 * the context window by the file size, and retries construction or probe
 * failures with delays of 2 s, 4 s, ...; and a generator that guards,
 * clamps, counts, probes and picks its stop sequences by the prompt.
 *
 * `ManagedLoad` and `ManagedGenerate` say what `load_model` and `generate`
 * do to the manager's fields; the class `LlamaServer` updates the fields in
 * place and is proved to follow them. `extract_json_from_text` is
 * `Json.ExtractJson`.
 */
module Manager {
  import opened Common
  import opened Text

  const MaxGenerateTokens: int := 4096
  const LargeModelSize: nat := 7 * GiB
  const ModelName: string := "llama3-8b-instruct"

  /** `n_ctx = 8192 if file_size < 7 else 4096` (GB), `n_threads = min(4, os.cpu_count() or 4)`, `n_batch = 512`. */
  function ManagedConfig(size: nat, cpuCount: Option<nat>): (c: EngineConfig)
    ensures c.nCtx == (if size < LargeModelSize then 8192 else 4096)
    ensures 1 <= c.nThreads <= 4 && (cpuCount.Some? && 0 < cpuCount.value <= 4 ==> c.nThreads == cpuCount.value)
    ensures c.nBatch == 512
  {
    EngineConfig(if size < LargeModelSize then 8192 else 4096, Min(4, OrDefault(cpuCount, 4)), 512)
  }

  /** What one construction attempt does. */
  datatype ManagedAttempt =
    | Built(loadTime: real, probe: Completion)  // the constructor returned; `probe` answers the "Teste" check
    | BuildRaised                                // the constructor threw

  /**
   * Everything `load_model` reads besides the manager's own fields. Each
   * recursive call looks at the file and the memory again, so both are
   * given per attempt, by the attempt's `retry_count`, like its outcome.
   */
  datatype ManagedEnv = ManagedEnv(
    file: nat -> FileInfo,
    availableMemory: nat -> Option<nat>,  // read for a warning only
    cpuCount: Option<nat>,
    recheck: Completion,           // the probe's answer when an engine is already held
    attempt: nat -> ManagedAttempt)

  /** The fields of a `LlamaServer`, as a value. */
  datatype ManagerState = ManagerState(llm: Option<Engine>, modelLoaded: bool, loadTime: real, requestCount: nat)

  predicate Coherent(s: ManagerState) {
    s.modelLoaded <==> s.llm.Some?
  }

  datatype LoadResult = LoadResult(ok: bool, state: ManagerState, effects: seq<Effect>)

  /** Prefixes the trace of a load with `pre`. */
  function After(pre: seq<Effect>, r: LoadResult): (q: LoadResult)
    ensures q.ok == r.ok && q.state == r.state
  {
    LoadResult(r.ok, r.state, pre + r.effects)
  }

  /** The trace of an attempt that failed: the construction, and the failed probe if the engine was built. */
  function FailedTrace(config: EngineConfig, a: ManagedAttempt): (t: seq<Effect>)
    ensures Constructions(t) == 1 && Delays(t) == []
  {
    match a
    case BuildRaised => [Construct(config)]
    case Built(_, _) =>
      assert [Construct(config), Probe(false)][1..] == [Probe(false)];
      [Construct(config), Probe(false)]
  }

  /** The state the exception handler leaves: no engine, and the load time of a built engine kept. */
  function Cleared(s: ManagerState, a: ManagedAttempt): (r: ManagerState)
    ensures r.llm.None? && !r.modelLoaded && r.requestCount == s.requestCount
  {
    match a
    case BuildRaised => s.(llm := None, modelLoaded := false)
    case Built(t, _) => s.(llm := None, modelLoaded := false, loadTime := t)
  }

  /** `load_model` once the held-engine re-check is behind it. */
  function FreshLoad(s: ManagerState, path: string, env: ManagedEnv, retryCount: nat, maxRetries: nat): (r: LoadResult)
    requires !s.modelLoaded
    decreases maxRetries - retryCount
    // the retry budget and a missing file refuse before any construction or delay
    ensures (retryCount >= maxRetries || !env.file(retryCount).present) ==> !r.ok && r.state == s && r.effects == []
    // success: an engine built from this path, its construction the last one, followed by a passing probe
    ensures r.ok ==> r.state.modelLoaded && r.state.llm.Some? && r.state.llm.value.path == path
                     && |r.effects| >= 2 && r.effects[|r.effects| - 1] == Probe(true)
                     && r.effects[|r.effects| - 2] == Construct(r.state.llm.value.config)
    // failure: nothing is held afterwards
    ensures !r.ok && (retryCount < maxRetries && env.file(retryCount).present) ==> r.state.llm.None? && !r.state.modelLoaded
    ensures Coherent(s) ==> Coherent(r.state)
    ensures r.state.requestCount == s.requestCount
  {
    if retryCount >= maxRetries then LoadResult(false, s, [])
    else if !env.file(retryCount).present then LoadResult(false, s, [])
    else
      var config := ManagedConfig(env.file(retryCount).size, env.cpuCount);
      var failedTrace := FailedTrace(config, env.attempt(retryCount));
      var failed := Cleared(s, env.attempt(retryCount));
      if env.attempt(retryCount).Built? && HasChoice(env.attempt(retryCount).probe) then
        LoadResult(true, s.(llm := Some(Engine(path, config)), modelLoaded := true,
                            loadTime := env.attempt(retryCount).loadTime),
                   [Construct(config), Probe(true)])
      else if retryCount + 1 < maxRetries then
        After(failedTrace + [Sleep((retryCount + 1) * 2)], FreshLoad(failed, path, env, retryCount + 1, maxRetries))
      else LoadResult(false, failed, failedTrace)
  }

  /** `load_model(model_path, retry_count, max_retries)`. */
  function ManagedLoad(s: ManagerState, path: string, env: ManagedEnv, retryCount: nat, maxRetries: nat): (r: LoadResult)
    // a held engine that passes the re-check is kept as it is
    ensures s.modelLoaded && s.llm.Some? && HasChoice(env.recheck) ==> r.ok && r.state == s && r.effects == [Probe(true)]
    // one that fails it is dropped and a fresh load follows
    ensures s.modelLoaded && !(s.llm.Some? && HasChoice(env.recheck)) ==>
              r == After([Probe(false)], FreshLoad(s.(llm := None, modelLoaded := false), path, env, retryCount, maxRetries))
  {
    if s.modelLoaded then
      if s.llm.Some? && HasChoice(env.recheck) then LoadResult(true, s, [Probe(true)])
      else After([Probe(false)], FreshLoad(s.(llm := None, modelLoaded := false), path, env, retryCount, maxRetries))
    else FreshLoad(s, path, env, retryCount, maxRetries)
  }

  /**
   * Construction and probe failures retry: a load makes at most
   * `max_retries - retry_count` constructions, and the delays it sleeps
   * follow the schedule (k+1)·2 from the start.
   */
  lemma {:induction false} FreshLoadSchedule(s: ManagerState, path: string, env: ManagedEnv, retryCount: nat, maxRetries: nat)
    requires !s.modelLoaded
    ensures var r := FreshLoad(s, path, env, retryCount, maxRetries);
      Constructions(r.effects) <= (if retryCount < maxRetries then maxRetries - retryCount else 0)
      && IsPrefixOf(Delays(r.effects), Backoff(retryCount, maxRetries, 2))
    decreases maxRetries - retryCount
  {
    var r := FreshLoad(s, path, env, retryCount, maxRetries);
    if retryCount < maxRetries && env.file(retryCount).present {
      var config := ManagedConfig(env.file(retryCount).size, env.cpuCount);
      var a := env.attempt(retryCount);
      if a.Built? && HasChoice(a.probe) {
        assert r.effects[1..] == [Probe(true)];
        NoSleepNoDelays(r.effects);
      } else if retryCount + 1 < maxRetries {
        var rest := FreshLoad(Cleared(s, a), path, env, retryCount + 1, maxRetries);
        var failedTrace := FailedTrace(config, a);
        assert r.effects == failedTrace + [Sleep((retryCount + 1) * 2)] + rest.effects;
        FreshLoadSchedule(Cleared(s, a), path, env, retryCount + 1, maxRetries);
        RetrySchedule(failedTrace, rest.effects, retryCount, maxRetries);
      }
    }
  }

  /** One failed attempt, its sleep, and a rest that keeps the schedule from the next attempt on, keep it from this one. */
  lemma RetrySchedule(failedTrace: seq<Effect>, rest: seq<Effect>, retryCount: nat, maxRetries: nat)
    requires Constructions(failedTrace) == 1 && Delays(failedTrace) == [] && retryCount + 1 < maxRetries
    requires Constructions(rest) <= maxRetries - (retryCount + 1)
    requires IsPrefixOf(Delays(rest), Backoff(retryCount + 1, maxRetries, 2))
    ensures var e := failedTrace + [Sleep((retryCount + 1) * 2)] + rest;
      Constructions(e) <= maxRetries - retryCount && IsPrefixOf(Delays(e), Backoff(retryCount, maxRetries, 2))
  {
    RetryTrace(failedTrace, rest, retryCount);
  }

  /** A failed attempt, its sleep and the rest: one construction more than the rest, and the sleep before the rest's delays. */
  lemma RetryTrace(failedTrace: seq<Effect>, rest: seq<Effect>, retryCount: nat)
    requires Constructions(failedTrace) == 1 && Delays(failedTrace) == []
    ensures var e := failedTrace + [Sleep((retryCount + 1) * 2)] + rest;
      Constructions(e) == Constructions(rest) + 1 && Delays(e) == [(retryCount + 1) * 2] + Delays(rest)
  {
    var sleep := [Sleep((retryCount + 1) * 2)];
    ConstructionsAppend(failedTrace + sleep, rest);
    DelaysAppend(failedTrace + sleep, rest);
    ConstructionsAppend(failedTrace, sleep);
    DelaysAppend(failedTrace, sleep);
    assert Delays(sleep) == [(retryCount + 1) * 2];
  }

  /** An attempt that builds an engine which answers the probe. */
  predicate Passes(a: ManagedAttempt) {
    a.Built? && HasChoice(a.probe)
  }

  /**
   * A model that never loads is tried once per remaining attempt: while the
   * file stays present and every attempt fails, the load constructs
   * `max_retries - retry_count` times and sleeps the whole schedule.
   */
  lemma {:induction false} PersistentFailure(s: ManagerState, path: string, env: ManagedEnv, retryCount: nat, maxRetries: nat)
    requires !s.modelLoaded && retryCount < maxRetries
    requires forall k :: retryCount <= k < maxRetries ==> env.file(k).present && !Passes(env.attempt(k))
    ensures var r := FreshLoad(s, path, env, retryCount, maxRetries);
      !r.ok && Constructions(r.effects) == maxRetries - retryCount && Delays(r.effects) == Backoff(retryCount, maxRetries, 2)
    decreases maxRetries - retryCount
  {
    var r := FreshLoad(s, path, env, retryCount, maxRetries);
    var a := env.attempt(retryCount);
    var failedTrace := FailedTrace(ManagedConfig(env.file(retryCount).size, env.cpuCount), a);
    assert env.file(retryCount).present && !Passes(a);
    if retryCount + 1 < maxRetries {
      var rest := FreshLoad(Cleared(s, a), path, env, retryCount + 1, maxRetries);
      assert r == After(failedTrace + [Sleep((retryCount + 1) * 2)], rest);
      PersistentFailure(Cleared(s, a), path, env, retryCount + 1, maxRetries);
      RetryTrace(failedTrace, rest.effects, retryCount);
    } else {
      assert r.effects == failedTrace;
    }
  }

  /**
   * The engine a successful load holds comes from the attempt that passed,
   * the one after as many sleeps as the trace shows: the file was present
   * then, and its size at that moment chose the context window.
   */
  lemma {:induction false} WinningAttempt(s: ManagerState, path: string, env: ManagedEnv, retryCount: nat, maxRetries: nat,
                                          r: LoadResult) returns (k: nat)
    requires !s.modelLoaded && r == FreshLoad(s, path, env, retryCount, maxRetries) && r.ok
    ensures k == retryCount + |Delays(r.effects)| && k < maxRetries
    ensures env.file(k).present && Passes(env.attempt(k))
    ensures r.state.llm == Some(Engine(path, ManagedConfig(env.file(k).size, env.cpuCount)))
    ensures r.state.loadTime == env.attempt(k).loadTime
    decreases maxRetries - retryCount
  {
    var config := ManagedConfig(env.file(retryCount).size, env.cpuCount);
    var a := env.attempt(retryCount);
    if Passes(a) {
      assert r.effects == [Construct(config), Probe(true)];
      assert r.effects[1..] == [Probe(true)];
      NoSleepNoDelays(r.effects);
      k := retryCount;
    } else {
      var rest := FreshLoad(Cleared(s, a), path, env, retryCount + 1, maxRetries);
      var failedTrace := FailedTrace(config, a);
      assert r == After(failedTrace + [Sleep((retryCount + 1) * 2)], rest);
      RetryTrace(failedTrace, rest.effects, retryCount);
      k := WinningAttempt(Cleared(s, a), path, env, retryCount + 1, maxRetries, rest);
    }
  }

  /** A file that is gone after the sleep ends the load: one failed attempt, one sleep, no second construction. */
  lemma VanishedFileEndsRetry(s: ManagerState, path: string, env: ManagedEnv, retryCount: nat, maxRetries: nat)
    requires !s.modelLoaded && retryCount + 1 < maxRetries
    requires env.file(retryCount).present && !Passes(env.attempt(retryCount)) && !env.file(retryCount + 1).present
    ensures var r := FreshLoad(s, path, env, retryCount, maxRetries);
      !r.ok && Constructions(r.effects) == 1 && Delays(r.effects) == [(retryCount + 1) * 2]
  {
    var a := env.attempt(retryCount);
    var failedTrace := FailedTrace(ManagedConfig(env.file(retryCount).size, env.cpuCount), a);
    RetryTrace(failedTrace, [], retryCount);
    assert failedTrace + [Sleep((retryCount + 1) * 2)] + [] == failedTrace + [Sleep((retryCount + 1) * 2)];
  }

  /** With the default budget of three attempts a load sleeps 2 s, then 4 s, and never a third time. */
  lemma DefaultSchedule(s: ManagerState, path: string, env: ManagedEnv)
    requires !s.modelLoaded
    ensures var ds := Delays(FreshLoad(s, path, env, 0, 3).effects);
      ds == [] || ds == [2] || ds == [2, 4]
  {
    FreshLoadSchedule(s, path, env, 0, 3);
    assert Backoff(0, 3, 2) == [2, 4];
  }

  /**
   * The size and memory checks only warn: the available memory never
   * changes the outcome, and a present file always reaches the engine
   * while the retry budget lasts.
   */
  lemma {:induction false} MemoryOnlyWarns(s: ManagerState, path: string, env: ManagedEnv, memory: nat -> Option<nat>,
                                           retryCount: nat, maxRetries: nat)
    requires !s.modelLoaded
    ensures FreshLoad(s, path, env, retryCount, maxRetries)
            == FreshLoad(s, path, env.(availableMemory := memory), retryCount, maxRetries)
    ensures env.file(retryCount).present && retryCount < maxRetries ==>
              Constructions(FreshLoad(s, path, env, retryCount, maxRetries).effects) >= 1
    decreases maxRetries - retryCount
  {
    var env' := env.(availableMemory := memory);
    if retryCount < maxRetries && env.file(retryCount).present {
      var a := env.attempt(retryCount);
      var config := ManagedConfig(env.file(retryCount).size, env.cpuCount);
      var r := FreshLoad(s, path, env, retryCount, maxRetries);
      assert r.effects[0] == Construct(config);
      if !(a.Built? && HasChoice(a.probe)) && retryCount + 1 < maxRetries {
        MemoryOnlyWarns(Cleared(s, a), path, env, memory, retryCount + 1, maxRetries);
      }
    }
  }

  // ---------------------------------------------------------------------------
  // Generation

  /** The stop sequences `generate` passes: `}` is allowed through exactly when the prompt mentions JSON. */
  function StopSequences(prompt: string): (stop: seq<string>)
    ensures "\n\n" in stop && "END" in stop
    ensures "}" in stop <==> !Contains(Lower(prompt), "json")
    ensures |stop| == (if Contains(Lower(prompt), "json") then 2 else 3)
  {
    if Contains(Lower(prompt), "json") then ["\n\n", "END"] else ["\n\n", "}", "END"]
  }

  datatype GenOutcome = GenOutcome(result: Result<Generation, GenError>, state: ManagerState, call: Option<EngineCall>)

  function GenerateGuard(s: ManagerState, prompt: string): (e: Option<GenError>)
    ensures e == Some(NotLoaded) <==> !(s.modelLoaded && s.llm.Some?)
    ensures e == Some(InvalidPrompt) <==> s.modelLoaded && s.llm.Some? && Strip(prompt) == []
    ensures e.None? <==> s.modelLoaded && s.llm.Some? && Strip(prompt) != []
  {
    if !(s.modelLoaded && s.llm.Some?) then Some(NotLoaded)
    else if Strip(prompt) == [] then Some(InvalidPrompt)
    else None
  }

  /** `generate` after the request has been counted in `s`. */
  function Counted(s: ManagerState, prompt: string, maxTokens: int, temperature: real,
                   probe: Completion, answer: Completion): GenOutcome
  {
    if !HasChoice(probe) then GenOutcome(Err(GenerationFailed), s, None)
    else
      var call := EngineCall(prompt, ClampInt(maxTokens, 1, MaxGenerateTokens), temperature, StopSequences(prompt));
      if !HasChoice(answer) then GenOutcome(Err(GenerationFailed), s, Some(call))
      else GenOutcome(Ok(Generation(Strip(answer.choices[0]), answer.tokens, s.requestCount, ModelName)), s, Some(call))
  }

  /** `generate(prompt, max_tokens, temperature)`; `probe` answers the integrity check, `answer` the prompt. */
  function ManagedGenerate(s: ManagerState, prompt: string, maxTokens: int, temperature: real,
                           probe: Completion, answer: Completion): (r: GenOutcome)
    ensures GenerateGuard(s, prompt).Some? ==>
              r.result == Err(GenerateGuard(s, prompt).value) && r.state == s && r.call.None?
    ensures GenerateGuard(s, prompt).None? ==> r.state == s.(requestCount := s.requestCount + 1)
    ensures r.call.Some? <==> GenerateGuard(s, prompt).None? && HasChoice(probe)
    ensures r.call.Some? ==>
              r.call.value.prompt == prompt && r.call.value.temperature == temperature
              && 1 <= r.call.value.maxTokens <= MaxGenerateTokens
              && (1 <= maxTokens <= MaxGenerateTokens ==> r.call.value.maxTokens == maxTokens)
              && r.call.value.stop == StopSequences(prompt)
    ensures r.result.Ok? <==> GenerateGuard(s, prompt).None? && HasChoice(probe) && HasChoice(answer)
    ensures r.result.Err? && GenerateGuard(s, prompt).None? ==> r.result.error == GenerationFailed
    ensures r.result.Ok? ==>
              r.result.value.text == Strip(answer.choices[0]) && r.result.value.tokens == answer.tokens
              && r.result.value.requestId == s.requestCount + 1
  {
    match GenerateGuard(s, prompt)
    case Some(e) => GenOutcome(Err(e), s, None)
    case None => Counted(s.(requestCount := s.requestCount + 1), prompt, maxTokens, temperature, probe, answer)
  }

  // ---------------------------------------------------------------------------
  // The manager object

  class LlamaServer {
    var llm: Option<Engine>
    var modelLoaded: bool
    var loadTime: real
    var requestCount: nat

    function Snapshot(): ManagerState
      reads this
    {
      ManagerState(llm, modelLoaded, loadTime, requestCount)
    }

    predicate Valid()
      reads this
    {
      Coherent(Snapshot())
    }

    constructor ()
      ensures Valid() && Snapshot() == ManagerState(None, false, 0.0, 0)
    {
      llm, modelLoaded, loadTime, requestCount := None, false, 0.0, 0;
    }

    /** `verify_model_integrity()`, with `probe` the engine's answer to the "Teste" request. */
    method VerifyModelIntegrity(probe: Completion) returns (ok: bool)
      ensures ok <==> modelLoaded && llm.Some? && HasChoice(probe)
    {
      if !modelLoaded || llm.None? {
        return false;
      }
      ok := HasChoice(probe);
    }

    method LoadModel(path: string, env: ManagedEnv, retryCount: nat, maxRetries: nat)
      returns (ok: bool, effects: seq<Effect>)
      requires Valid()
      modifies this
      ensures Valid()
      ensures ManagedLoad(old(Snapshot()), path, env, retryCount, maxRetries) == LoadResult(ok, Snapshot(), effects)
      decreases maxRetries - retryCount, 1
    {
      var pre: seq<Effect> := [];
      if modelLoaded {
        var passed := VerifyModelIntegrity(env.recheck);
        if passed {
          return true, [Probe(true)];
        }
        modelLoaded := false;
        llm := None;
        pre := [Probe(false)];
      }
      var rest;
      ok, rest := Attempt(path, env, retryCount, maxRetries);
      effects := pre + rest;
    }

    /** The part of `load_model` after the re-check: the guards, one attempt, and the retry. */
    method Attempt(path: string, env: ManagedEnv, retryCount: nat, maxRetries: nat)
      returns (ok: bool, effects: seq<Effect>)
      requires Valid() && !modelLoaded
      modifies this
      ensures Valid()
      ensures FreshLoad(old(Snapshot()), path, env, retryCount, maxRetries) == LoadResult(ok, Snapshot(), effects)
      decreases maxRetries - retryCount, 0
    {
      if retryCount >= maxRetries {
        return false, [];
      }
      var file := env.file(retryCount);
      if !file.present {
        return false, [];
      }
      var config := ManagedConfig(file.size, env.cpuCount);
      var trace: seq<Effect>;
      match env.attempt(retryCount) {
        case BuildRaised =>
          trace := [Construct(config)];
        case Built(t, probe) =>
          llm := Some(Engine(path, config));
          loadTime := t;
          modelLoaded := true;
          var passed := VerifyModelIntegrity(probe);
          if passed {
            return true, [Construct(config), Probe(true)];
          }
          trace := [Construct(config), Probe(false)];
      }
      llm := None;
      modelLoaded := false;
      if retryCount + 1 < maxRetries {
        var delay := (retryCount + 1) * 2;
        var rest;
        ok, rest := LoadModel(path, env, retryCount + 1, maxRetries);
        return ok, trace + [Sleep(delay)] + rest;
      }
      return false, trace;
    }

    method Generate(prompt: string, maxTokens: int, temperature: real, probe: Completion, answer: Completion)
      returns (result: Result<Generation, GenError>, call: Option<EngineCall>)
      requires Valid()
      modifies this
      ensures Valid()
      ensures ManagedGenerate(old(Snapshot()), prompt, maxTokens, temperature, probe, answer)
              == GenOutcome(result, Snapshot(), call)
    {
      ghost var s0 := Snapshot();
      var guard := GenerateGuard(Snapshot(), prompt);
      if guard.Some? {
        return Err(guard.value), None;
      }
      requestCount := requestCount + 1;
      assert Snapshot() == s0.(requestCount := s0.requestCount + 1);
      result, call := GenerateCounted(prompt, maxTokens, temperature, probe, answer);
    }

    /** The part of `generate` after the request has been counted: the probe, then the engine call. */
    method GenerateCounted(prompt: string, maxTokens: int, temperature: real, probe: Completion, answer: Completion)
      returns (result: Result<Generation, GenError>, call: Option<EngineCall>)
      requires Valid() && modelLoaded && llm.Some?
      ensures GenOutcome(result, Snapshot(), call) == Counted(Snapshot(), prompt, maxTokens, temperature, probe, answer)
    {
      var passed := VerifyModelIntegrity(probe);
      if !passed {
        return Err(GenerationFailed), None;
      }
      // out-of-range values are adjusted; in-range values stay as they are
      var tokens := ClampInt(maxTokens, 1, MaxGenerateTokens);
      var stop := StopSequences(prompt);
      call := Some(EngineCall(prompt, tokens, temperature, stop));
      if !HasChoice(answer) {
        return Err(GenerationFailed), call;
      }
      var text := Strip(answer.choices[0]);
      result := Ok(Generation(text, answer.tokens, requestCount, ModelName));
    }
  }
}
