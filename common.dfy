/**
 * Types shared by the model of every server variant: optional and fallible
 * values, the abstract view of a model file on disk, and the oracle that
 * stands for the native inference engine.
 */
module Common {

  datatype Option<T> = None | Some(value: T) {
    /** Python's `d.get(key, default)` once the lookup has been done. */
    function GetOr(default: T): T {
      if Some? then value else default
    }
  }

  datatype Result<T, E> = Ok(value: T) | Err(error: E)

  newtype byte = x: int | 0 <= x < 256

  const MiB: nat := 1024 * 1024
  const GiB: nat := 1024 * 1024 * 1024

  /**
   * What the servers can observe of a file: whether `Path.exists()` holds,
   * whether `stat()`/`open()` succeed on it, its size in bytes and its
   * leading bytes (the whole file when it is short).
   */
  datatype FileInfo = FileInfo(present: bool, readable: bool, size: nat, leading: seq<byte>)

  /**
   * One answer of the engine's completion call (`llm(prompt, ...)` or
   * `model.create_completion(...)`).
   */
  datatype Completion =
    | Answered(choices: seq<string>, tokens: nat)  // a response holding a "choices" list, possibly empty
    | Malformed                                    // None, an empty response, or one without "choices"
    | Raised(message: string)                      // the call threw

  /** True when the response has at least one choice, the test every probe of the safe and plain managers applies. */
  predicate HasChoice(c: Completion) {
    c.Answered? && |c.choices| > 0
  }

  /** Why a `generate` call raised: the guards that run before the engine, or a failure of the engine call. */
  datatype GenError = ShuttingDown | NotLoaded | InvalidPrompt | GenerationFailed

  /** The dictionary a successful `generate` returns, without its timing field. */
  datatype Generation = Generation(text: string, tokens: nat, requestId: nat, model: string)

  /** The completion request handed to the engine. */
  datatype EngineCall = EngineCall(prompt: string, maxTokens: int, temperature: real, stop: seq<string>)

  /** The tuning parameters handed to the engine's constructor. */
  datatype EngineConfig = EngineConfig(nCtx: nat, nThreads: nat, nBatch: nat)

  /** A constructed engine object: what it was built from. */
  datatype Engine = Engine(path: string, config: EngineConfig)

  /**
   * The observable interactions of a load with its environment, in order:
   * constructing the engine, one integrity probe and its verdict, one
   * `time.sleep(seconds)`.
   */
  datatype Effect = Construct(config: EngineConfig) | Probe(passed: bool) | Sleep(seconds: nat)

  /** What building an engine and running its self-test does, for the servers that load inside a cleanup context. */
  datatype BuildOutcome =
    | Built(selfTest: Completion)  // the constructor returned; `selfTest` answers the test prompt
    | BuildRaised                  // the constructor threw

  /**
   * Building `engine` inside the cleanup context and running the self-test:
   * the answer of the load and the engine held afterwards, whatever was held
   * before. The test passes on any response with a
   * "choices" key, even an empty one; an exception drops whatever engine is
   * held, while a response without "choices" fails the load and keeps the
   * new engine.
   */
  function BuildAndTest(engine: Engine, build: BuildOutcome): (r: (bool, Option<Engine>))
    ensures r.0 <==> build.Built? && build.selfTest.Answered?
    ensures r.0 ==> r.1 == Some(engine)
    ensures build.Built? && build.selfTest.Malformed? ==> !r.0 && r.1 == Some(engine)
    ensures (build.BuildRaised? || build.selfTest.Raised?) ==> !r.0 && r.1.None?
  {
    match build
    case BuildRaised => (false, None)
    case Built(test) =>
      match test
      case Answered(_, _) => (true, Some(engine))
      case Malformed => (false, Some(engine))
      case Raised(_) => (false, None)
  }

  /** Number of engine constructions in a trace. */
  function Constructions(effects: seq<Effect>): (n: nat)
    ensures n <= |effects|
  {
    if |effects| == 0 then 0
    else (if effects[0].Construct? then 1 else 0) + Constructions(effects[1..])
  }

  /** The delays slept in a trace, in order. */
  function Delays(effects: seq<Effect>): (ds: seq<nat>)
    ensures |ds| <= |effects|
  {
    if |effects| == 0 then []
    else (if effects[0].Sleep? then [effects[0].seconds] else []) + Delays(effects[1..])
  }

  lemma {:induction false} ConstructionsAppend(a: seq<Effect>, b: seq<Effect>)
    ensures Constructions(a + b) == Constructions(a) + Constructions(b)
    decreases |a|
  {
    if |a| > 0 {
      assert (a + b)[1..] == a[1..] + b;
      ConstructionsAppend(a[1..], b);
    } else {
      assert a + b == b;
    }
  }

  lemma {:induction false} DelaysAppend(a: seq<Effect>, b: seq<Effect>)
    ensures Delays(a + b) == Delays(a) + Delays(b)
    decreases |a|
  {
    if |a| > 0 {
      assert (a + b)[1..] == a[1..] + b;
      DelaysAppend(a[1..], b);
    } else {
      assert a + b == b;
    }
  }

  /**
   * The delays a progressive retry schedule allows from attempt `retryCount`
   * on: (k+1)·step seconds before the attempt after attempt k, for every k
   * that still leaves an attempt within `maxRetries`.
   */
  function Backoff(retryCount: nat, maxRetries: nat, step: nat): (ds: seq<nat>)
    ensures |ds| == if retryCount + 1 < maxRetries then maxRetries - 1 - retryCount else 0
    decreases maxRetries - retryCount
  {
    if retryCount + 1 < maxRetries then [(retryCount + 1) * step] + Backoff(retryCount + 1, maxRetries, step) else []
  }

  predicate IsPrefixOf(p: seq<nat>, s: seq<nat>) {
    |p| <= |s| && s[..|p|] == p
  }

  lemma {:induction false} NoSleepNoDelays(effects: seq<Effect>)
    requires forall k :: 0 <= k < |effects| ==> !effects[k].Sleep?
    ensures Delays(effects) == []
    decreases |effects|
  {
    if |effects| > 0 {
      NoSleepNoDelays(effects[1..]);
    }
  }

  /** `min(max(n, lo), hi)` on integers. */
  function ClampInt(n: int, lo: int, hi: int): (r: int)
    requires lo <= hi
    ensures lo <= r <= hi
    ensures lo <= n <= hi ==> r == n
    ensures n < lo ==> r == lo
    ensures n > hi ==> r == hi
  {
    if n < lo then lo else if n > hi then hi else n
  }

  /** `max(lo, min(x, hi))` on reals. */
  function ClampReal(x: real, lo: real, hi: real): (r: real)
    requires lo <= hi
    ensures lo <= r <= hi
    ensures lo <= x <= hi ==> r == x
    ensures x < lo ==> r == lo
    ensures x > hi ==> r == hi
  {
    if x > hi then hi else if x < lo then lo else x
  }

  /** Python's `x or d` for an optional count, where both None and 0 are falsy. */
  function OrDefault(x: Option<nat>, d: nat): (r: nat)
    ensures (x.Some? && x.value > 0) ==> r == x.value
    ensures (x.None? || x.value == 0) ==> r == d
  {
    if x.Some? && x.value > 0 then x.value else d
  }

  function Min(a: int, b: int): int {
    if a <= b then a else b
  }
}
