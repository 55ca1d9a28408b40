/**
 * The first, minimal server: a `LlamaServer` with a load that never retries
 * and a generator that counts every call it lets through; the `/load` and
 * `/generate` routes with their input rejection; and `/validate`, which cuts
 * the model's answer at its first `}` when it opens with `{`, decodes it,
 * and falls back to a keyword test when decoding fails.
 */
module BasicServer {
  import opened Common
  import opened Text
  import opened Json

  const BasicConfig: EngineConfig := EngineConfig(8192, 4, 512)
  const DefaultModelPath: string := "./models/llama3-8b-instruct.Q4_K_M.gguf"
  const Stops: seq<string> := ["\n\n", "}", "END"]

  /** What the engine constructor does. */
  datatype Construction = Constructed(loadTime: real) | ConstructRaised

  /** The fields of the server, as a value. */
  datatype BasicState = BasicState(llm: Option<Engine>, modelLoaded: bool, loadTime: real, requestCount: nat)

  predicate Coherent(s: BasicState) {
    s.modelLoaded <==> s.llm.Some?
  }

  /** `load_model(model_path)`. */
  function BasicLoad(s: BasicState, path: string, build: Construction): (r: (bool, BasicState))
    ensures s.modelLoaded ==> r == (true, s)
    ensures !s.modelLoaded && build.ConstructRaised? ==> r == (false, s)
    ensures r.0 <==> s.modelLoaded || build.Constructed?
    ensures !s.modelLoaded && r.0 ==> r.1.llm == Some(Engine(path, BasicConfig)) && r.1.modelLoaded
    ensures Coherent(s) ==> Coherent(r.1)
    ensures r.1.requestCount == s.requestCount
  {
    if s.modelLoaded then (true, s)
    else match build
      case ConstructRaised => (false, s)
      case Constructed(t) => (true, s.(llm := Some(Engine(path, BasicConfig)), modelLoaded := true, loadTime := t))
  }

  /** The dictionary `generate` returns, without its timing field. */
  datatype Reply = Reply(text: string, tokens: nat, model: string)

  /** `generate(prompt, max_tokens, temperature)`, with `answer` the engine's response. */
  function BasicGenerate(s: BasicState, prompt: string, maxTokens: int, temperature: real, answer: Completion)
    : (r: (Result<Reply, GenError>, BasicState, Option<EngineCall>))
    // not loaded: raises before counting
    ensures !s.modelLoaded ==> r == (Err(NotLoaded), s, None)
    // loaded: the call is counted before the engine runs, whatever it then does
    ensures s.modelLoaded ==> r.1 == s.(requestCount := s.requestCount + 1)
                              && r.2 == Some(EngineCall(prompt, maxTokens, temperature, Stops))
    ensures r.0.Ok? <==> s.modelLoaded && HasChoice(answer)
    ensures r.0.Ok? ==> r.0.value.text == Strip(answer.choices[0]) && r.0.value.tokens == answer.tokens
  {
    if !s.modelLoaded then (Err(NotLoaded), s, None)
    else
      var counted := s.(requestCount := s.requestCount + 1);
      var call := Some(EngineCall(prompt, maxTokens, temperature, Stops));
      if HasChoice(answer) then (Ok(Reply(Strip(answer.choices[0]), answer.tokens, "llama3-8b-instruct")), counted, call)
      else (Err(GenerationFailed), counted, call)
  }

  /** The routes' answers: a status code and what the body says. */
  datatype Body =
    | Loaded(loadTime: real)
    | Generated(reply: Reply)
    | ModelJson(fields: map<string, JsonValue>, tokens: nat)  // the decoded model answer, with the token count added
    | FallbackVerdict(matched: bool, confidence: real, raw: string)
    | ErrorBody

  datatype Response = Response(code: nat, body: Body)

  // ---------------------------------------------------------------------------
  // /validate

  /**
   * The answer clean-up of `/validate`: an answer that starts with `{` and
   * holds a `}` is cut just after its first `}`; any other answer is kept.
   */
  function TrimAtBrace(t: string): (r: string)
    ensures !(|t| > 0 && t[0] == '{' && '}' in t) ==> r == t
    ensures |t| > 0 && t[0] == '{' && '}' in t ==>
              0 < |r| <= |t| && r == t[..|r|] && r[0] == '{' && r[|r| - 1] == '}' && '}' !in r[..|r| - 1]
  {
    if |t| > 0 && t[0] == '{' && '}' in t then
      match Find(t, '}', 0)
      case Some(k) =>
        assert forall m :: 0 <= m < k ==> t[..k + 1][m] == t[m];
        t[..k + 1]
      case None => assert false; t
    else t
  }

  /** Cutting a second time changes nothing. */
  lemma TrimIdempotent(t: string)
    ensures TrimAtBrace(TrimAtBrace(t)) == TrimAtBrace(t)
  {
    var r := TrimAtBrace(t);
    if |t| > 0 && t[0] == '{' && '}' in t {
      var k := |r| - 1;
      assert '}' in r by { assert r[k] == '}'; }
      assert forall m :: 0 <= m < k ==> r[m] != '}' by {
        forall m | 0 <= m < k ensures r[m] != '}' {
          assert r[..k][m] == r[m];
        }
      }
      assert r[..k + 1] == r;
    }
  }

  /** The keyword test used when the answer does not decode: both "true" and "match" must occur, in any case. */
  function FallbackMatch(t: string): (r: (bool, real))
    ensures r.0 <==> Contains(Lower(t), "true") && Contains(Lower(t), "match")
    ensures r.1 == 0.5
  {
    (Contains(Lower(t), "true") && Contains(Lower(t), "match"), 0.5)
  }

  /**
   * How `/validate` answers once `generate` has run: `parse` stands for
   * `json.loads` (None on a decoding error).
   */
  function ValidateReply(gen: Result<Reply, GenError>, parse: string -> Option<JsonValue>): (r: Response)
    ensures gen.Err? ==> r == Response(500, ErrorBody)
    ensures gen.Ok? ==> var t := TrimAtBrace(Strip(gen.value.text));
      (parse(t).None? ==> r == Response(200, FallbackVerdict(FallbackMatch(t).0, 0.5, t)))
      // a decoded object is passed on with the token count; any other decoded value makes the handler fail
      && (parse(t).Some? && parse(t).value.JObject? ==> r == Response(200, ModelJson(parse(t).value.fields, gen.value.tokens)))
      && (parse(t).Some? && !parse(t).value.JObject? ==> r == Response(500, ErrorBody))
  {
    match gen
    case Err(_) => Response(500, ErrorBody)
    case Ok(reply) =>
      var t := TrimAtBrace(Strip(reply.text));
      match parse(t)
      case None => Response(200, FallbackVerdict(FallbackMatch(t).0, 0.5, t))
      case Some(v) =>
        if v.JObject? then Response(200, ModelJson(v.fields, reply.tokens)) else Response(500, ErrorBody)
  }

  /** The request values `/generate` reads, with their defaults applied. */
  datatype GenerateRequest = GenerateRequest(prompt: string, maxTokens: int, temperature: real)

  // ---------------------------------------------------------------------------
  // The server object and its routes

  class LlamaServer {
    var llm: Option<Engine>
    var modelLoaded: bool
    var loadTime: real
    var requestCount: nat

    function Snapshot(): BasicState
      reads this
    {
      BasicState(llm, modelLoaded, loadTime, requestCount)
    }

    predicate Valid()
      reads this
    {
      Coherent(Snapshot())
    }

    constructor ()
      ensures Valid() && Snapshot() == BasicState(None, false, 0.0, 0)
    {
      llm, modelLoaded, loadTime, requestCount := None, false, 0.0, 0;
    }

    method LoadModel(path: string, build: Construction) returns (ok: bool)
      requires Valid()
      modifies this
      ensures Valid()
      ensures (ok, Snapshot()) == BasicLoad(old(Snapshot()), path, build)
    {
      if modelLoaded {
        return true;
      }
      match build {
        case ConstructRaised =>
          return false;
        case Constructed(t) =>
          llm := Some(Engine(path, BasicConfig));
          loadTime := t;
          modelLoaded := true;
          return true;
      }
    }

    method Generate(prompt: string, maxTokens: int, temperature: real, answer: Completion)
      returns (result: Result<Reply, GenError>, call: Option<EngineCall>)
      requires Valid()
      modifies this
      ensures Valid()
      ensures (result, Snapshot(), call) == BasicGenerate(old(Snapshot()), prompt, maxTokens, temperature, answer)
    {
      if !modelLoaded {
        return Err(NotLoaded), None;
      }
      requestCount := requestCount + 1;
      call := Some(EngineCall(prompt, maxTokens, temperature, Stops));
      if !HasChoice(answer) {
        return Err(GenerationFailed), call;
      }
      result := Ok(Reply(Strip(answer.choices[0]), answer.tokens, "llama3-8b-instruct"));
    }
  }

  /**
   * `POST /load`. `body` is the decoded request, None when it is not a JSON
   * object (the handler then fails with 500); `present` the existing paths.
   */
  method LoadRoute(server: LlamaServer, body: Option<map<string, string>>, present: set<string>, build: Construction)
    returns (r: Response)
    requires server.Valid()
    modifies server
    ensures server.Valid()
    ensures body.None? ==> r.code == 500 && server.Snapshot() == old(server.Snapshot())
    ensures body.Some? ==> var path := if "model_path" in body.value then body.value["model_path"] else DefaultModelPath;
      if path !in present then r.code == 404 && server.Snapshot() == old(server.Snapshot())
      else var (ok, after) := BasicLoad(old(server.Snapshot()), path, build);
        server.Snapshot() == after && r.code == (if ok then 200 else 500)
  {
    if body.None? {
      return Response(500, ErrorBody);
    }
    var path := if "model_path" in body.value then body.value["model_path"] else DefaultModelPath;
    if path !in present {
      return Response(404, ErrorBody);
    }
    var ok := server.LoadModel(path, build);
    if ok {
      r := Response(200, Loaded(server.loadTime));
    } else {
      r := Response(500, ErrorBody);
    }
  }

  /** `POST /generate`: an empty prompt is refused with 400 before the server is asked. */
  method GenerateRoute(server: LlamaServer, request: Option<GenerateRequest>, answer: Completion)
    returns (r: Response)
    requires server.Valid()
    modifies server
    ensures server.Valid()
    ensures request.None? ==> r.code == 500 && server.Snapshot() == old(server.Snapshot())
    ensures request.Some? && request.value.prompt == [] ==> r.code == 400 && server.Snapshot() == old(server.Snapshot())
    ensures request.Some? && request.value.prompt != [] ==>
              var q := request.value;
              var (gen, after, _) := BasicGenerate(old(server.Snapshot()), q.prompt, q.maxTokens, q.temperature, answer);
              server.Snapshot() == after && (r.code == 200 <==> gen.Ok?)
  {
    if request.None? {
      return Response(500, ErrorBody);
    }
    var q := request.value;
    if q.prompt == [] {
      return Response(400, ErrorBody);
    }
    var gen, _ := server.Generate(q.prompt, q.maxTokens, q.temperature, answer);
    match gen {
      case Ok(reply) => r := Response(200, Generated(reply));
      case Err(_) => r := Response(500, ErrorBody);
    }
  }

  /**
   * `POST /validate`: `hasBody` is false when the request carries no JSON
   * object, which fails with 500 before the server is asked; otherwise one
   * generation of at most 200 tokens, then the reply rules above.
   */
  method ValidateRoute(server: LlamaServer, hasBody: bool, prompt: string, answer: Completion,
                       parse: string -> Option<JsonValue>)
    returns (r: Response)
    requires server.Valid()
    modifies server
    ensures server.Valid()
    ensures !hasBody ==> r == Response(500, ErrorBody) && server.Snapshot() == old(server.Snapshot())
    ensures hasBody ==> var (gen, after, _) := BasicGenerate(old(server.Snapshot()), prompt, 200, 0.1, answer);
      server.Snapshot() == after && r == ValidateReply(gen, parse)
  {
    if !hasBody {
      return Response(500, ErrorBody);
    }
    var gen, _ := server.Generate(prompt, 200, 0.1, answer);
    r := ValidateReply(gen, parse);
  }
}
