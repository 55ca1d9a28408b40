/**
 * The stable server: one fixed model file and engine configuration, a
 * resource check (at least 3 GB of available memory and an existing model
 * file) in front of the load, and a `/validate` that accepts only "YES".
 */
module Stable {
  import opened Common
  import opened Text

  const ModelPath: string := "models/phi-3-mini-4k-instruct.Q4_K_M.gguf"
  const StableConfig: EngineConfig := EngineConfig(2048, 1, 128)
  const MinAvailableMemory: nat := 3 * GiB

  /**
   * `check_system_resources()`. `availableMemory` is None when psutil
   * fails, which the handler turns into a rejection.
   */
  function CheckSystemResources(availableMemory: Option<nat>, modelFile: FileInfo): (ok: bool)
    ensures ok <==> availableMemory.Some? && availableMemory.value >= MinAvailableMemory && modelFile.present
  {
    match availableMemory
    case None => false
    case Some(bytes) => if bytes < MinAvailableMemory then false else modelFile.present
  }

  /** `load_model()`, from the engine `held`: its answer, the engine afterwards, and what was built. */
  function StableLoad(held: Option<Engine>, availableMemory: Option<nat>, modelFile: FileInfo, build: BuildOutcome)
    : (r: (bool, Option<Engine>, seq<Effect>))
    // a failed resource check returns False before anything is built or dropped
    ensures !CheckSystemResources(availableMemory, modelFile) ==> r == (false, held, [])
    ensures CheckSystemResources(availableMemory, modelFile) ==>
              r.2 == [Construct(StableConfig)] && (r.0, r.1) == BuildAndTest(Engine(ModelPath, StableConfig), build)
    ensures Constructions(r.2) <= 1
  {
    if !CheckSystemResources(availableMemory, modelFile) then (false, held, [])
    else
      var (ok, engine) := BuildAndTest(Engine(ModelPath, StableConfig), build);
      (ok, engine, [Construct(StableConfig)])
  }

  /** A load answers True only with enough memory, the model file present, and a passed self-test. */
  lemma LoadNeedsResources(held: Option<Engine>, availableMemory: Option<nat>, modelFile: FileInfo, build: BuildOutcome)
    requires StableLoad(held, availableMemory, modelFile, build).0
    ensures availableMemory.Some? && availableMemory.value >= 3 * GiB && modelFile.present
    ensures StableLoad(held, availableMemory, modelFile, build).1 == Some(Engine(ModelPath, StableConfig))
  {
  }

  /** `'YES' in answer` after `strip().upper()`: "SIM" is not accepted here. */
  function ClassifyAnswer(text: string): (r: (bool, real))
    ensures r.0 <==> Contains(Upper(Strip(text)), "YES")
    ensures r.1 == (if r.0 then 0.9 else 0.1)
  {
    var matched := Contains(Upper(Strip(text)), "YES");
    (matched, if matched then 0.9 else 0.1)
  }

  /** A bare "sim" is rejected: it holds no `Y`. */
  lemma SimIsNotYes()
    ensures !ClassifyAnswer("SIM").0
  {
    var sim := "SIM";
    assert !IsSpace(sim[0]) && !IsSpace(sim[2]);
    assert StripLeft(sim) == sim;
    assert StripRight(sim) == sim;
    var up := Upper(sim);
    assert up[0] == 'S' && up[1] == 'I' && up[2] == 'M';
    assert 'Y' !in up;
    AbsentHeadNotContained(up, "YES");
  }

  /** "yes" in lower case and with surrounding spaces is accepted. */
  lemma LowerYesAccepted()
    ensures ClassifyAnswer(" yes ").0
  {
    PaddedYesLeft();
    PaddedYesRight();
    UpperYes();
    SelfContained("YES");
  }

  lemma PaddedYesLeft()
    ensures StripLeft(" yes ") == "yes "
  {
    var padded := " yes ";
    assert IsSpace(padded[0]) && !IsSpace(padded[1]);
    assert StripLeft(padded[1..]) == padded[1..];
  }

  lemma PaddedYesRight()
    ensures StripRight("yes ") == "yes"
  {
    var left := "yes ";
    assert IsSpace(left[3]) && !IsSpace(left[2]);
    assert StripRight(left[..3]) == left[..3];
  }

  lemma UpperYes()
    ensures Upper("yes") == "YES"
  {
    var up := Upper("yes");
    assert up[0] == 'Y' && up[1] == 'E' && up[2] == 'S';
  }

  /** Both values are cut to `[:100]` before they go into the prompt. */
  function PromptValues(csv: string, web: string): (r: (string, string))
    // each value is its own first min(len, 100) characters
    ensures |r.0| == Min(|csv|, 100) && r.0 == csv[..|r.0|] && |r.1| == Min(|web|, 100) && r.1 == web[..|r.1|]
  {
    (Take(csv, 100), Take(web, 100))
  }

  datatype ValidateResponse = ValidateResponse(code: nat, matched: bool, confidence: real)

  /** `/validate`: `body` is None when the request carries no JSON object, `answer` is the engine's completion. */
  function Validate(model: Option<Engine>, body: Option<map<string, string>>, answer: Completion): (r: ValidateResponse)
    ensures model.None? ==> r == ValidateResponse(503, false, 0.0)
    ensures model.Some? && body.None? ==> r == ValidateResponse(400, false, 0.0)
    ensures model.Some? && body.Some? && !HasChoice(answer) ==> r == ValidateResponse(500, false, 0.0)
    ensures r.code == 200 <==> model.Some? && body.Some? && HasChoice(answer)
    ensures r.code == 200 ==> (r.matched, r.confidence) == ClassifyAnswer(answer.choices[0])
  {
    if model.None? then ValidateResponse(503, false, 0.0)
    else if body.None? then ValidateResponse(400, false, 0.0)
    else if !HasChoice(answer) then ValidateResponse(500, false, 0.0)
    else
      var (matched, confidence) := ClassifyAnswer(answer.choices[0]);
      ValidateResponse(200, matched, confidence)
  }

  class StableLLMServer {
    var model: Option<Engine>

    constructor ()
      ensures model.None?
    {
      model := None;
    }

    method LoadModel(availableMemory: Option<nat>, modelFile: FileInfo, build: BuildOutcome)
      returns (ok: bool, effects: seq<Effect>)
      modifies this
      ensures (ok, model, effects) == StableLoad(old(model), availableMemory, modelFile, build)
    {
      if !CheckSystemResources(availableMemory, modelFile) {
        return false, [];
      }
      effects := [Construct(StableConfig)];
      match build {
        case BuildRaised =>
          model := None;
          ok := false;
        case Built(test) =>
          model := Some(Engine(ModelPath, StableConfig));
          match test {
            case Answered(_, _) =>
              ok := true;
            case Malformed =>
              ok := false;
            case Raised(_) =>
              model := None;
              ok := false;
          }
      }
    }

    /** `cleanup()`: afterwards no engine is held, and it is harmless when none was. */
    method Cleanup()
      modifies this
      ensures model.None?
      ensures old(model).None? ==> model == old(model)
    {
      if model.Some? {
        model := None;
      }
    }
  }
}
