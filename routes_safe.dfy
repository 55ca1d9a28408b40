/**
 * The HTTP routes in front of the safe manager: `/generate` and
 * `/completion` with their parameter clamps and key precedence, `/validate`
 * with fence removal, JSON acceptance and the string-comparison fallback,
 * and `/health`, which records each of its calls in the monitor.
 *
 * The handlers are modelled on the values of the objects they call: the
 * manager as a `SafeState` changed by `SafeGenerate`, the monitor as a
 * `Monitor` changed by `Record`.
 */
module RoutesSafe {
  import opened Common
  import opened Text
  import opened Json
  import opened Health
  import opened SafeManager

  const DefaultTokens: int := 512
  const DefaultTemperature: real := 0.1
  const RouteMaxTokens: int := 1024
  const ValidateTokens: int := 100

  // ---------------------------------------------------------------------------
  // /generate and /completion

  /**
   * The keys of a generation request body that the handlers read, each None
   * when absent. The body itself is None when it is missing or empty.
   */
  datatype GenerateArgs = GenerateArgs(prompt: Option<string>, maxTokens: Option<int>, nPredict: Option<int>,
                                       temperature: Option<real>)

  /** `data.get(first, data.get(second, 512))`. */
  function TokenArg(first: Option<int>, second: Option<int>): (n: int)
    ensures first.Some? ==> n == first.value
    ensures first.None? && second.Some? ==> n == second.value
    ensures first.None? && second.None? ==> n == DefaultTokens
  {
    first.GetOr(second.GetOr(DefaultTokens))
  }

  /** `/generate` reads `max_tokens` first, `/completion` reads `n_predict` first. */
  function RequestedTokens(args: GenerateArgs, completion: bool): int {
    if completion then TokenArg(args.nPredict, args.maxTokens) else TokenArg(args.maxTokens, args.nPredict)
  }

  /** The two routes read the same count unless the body holds both keys with different values. */
  lemma KeyPrecedence(args: GenerateArgs)
    ensures RequestedTokens(args, false) != RequestedTokens(args, true) <==>
              args.maxTokens.Some? && args.nPredict.Some? && args.maxTokens.value != args.nPredict.value
    ensures args.maxTokens.None? && args.nPredict.None? ==>
              RequestedTokens(args, false) == DefaultTokens == RequestedTokens(args, true)
  {
  }

  /** `min(max(max_tokens, 1), 1024)` and `max(0.0, min(temperature, 1.0))`. */
  function RouteParams(args: GenerateArgs, completion: bool): (p: (int, real))
    ensures 1 <= p.0 <= RouteMaxTokens && 0.0 <= p.1 <= 1.0
    ensures 1 <= RequestedTokens(args, completion) <= RouteMaxTokens ==> p.0 == RequestedTokens(args, completion)
    ensures var t := args.temperature.GetOr(DefaultTemperature); 0.0 <= t <= 1.0 ==> p.1 == t
  {
    (ClampInt(RequestedTokens(args, completion), 1, RouteMaxTokens),
     ClampReal(args.temperature.GetOr(DefaultTemperature), 0.0, 1.0))
  }

  /** A route's answer: its status code and, on success, the generation it carries. */
  datatype RouteReply = RouteReply(code: nat, generation: Option<Generation>)

  /**
   * `/generate` (`completion` false) and `/completion` (`completion` true),
   * with `probe` and `answer` the engine's responses; the manager state after.
   */
  function GenerateRoute(s: SafeState, body: Option<GenerateArgs>, completion: bool, probe: Completion, answer: Completion)
    : (r: (RouteReply, SafeState))
    // a missing body or an empty prompt is refused before the manager is asked
    ensures body.None? || body.value.prompt.GetOr("") == [] ==> r == (RouteReply(400, None), s)
    ensures body.Some? && body.value.prompt.GetOr("") != [] ==>
              var (tokens, temp) := RouteParams(body.value, completion);
              var g := SafeGenerate(s, body.value.prompt.value, tokens, temp, probe, answer);
              r.1 == g.state
              // the engine sees exactly the route's clamped values
              && (g.call.Some? ==> g.call.value.maxTokens == tokens && g.call.value.temperature == temp)
              && (r.0.code == 200 <==> g.result.Ok?)
              && (g.result.Ok? ==> r.0.generation == Some(g.result.value))
              && (g.result.Err? ==> r.0 == RouteReply(500, None))
  {
    if body.None? || body.value.prompt.GetOr("") == [] then (RouteReply(400, None), s)
    else
      var (tokens, temp) := RouteParams(body.value, completion);
      var g := SafeGenerate(s, body.value.prompt.value, tokens, temp, probe, answer);
      match g.result
      case Ok(gen) => (RouteReply(200, Some(gen)), g.state)
      case Err(_) => (RouteReply(500, None), g.state)
  }

  // ---------------------------------------------------------------------------
  // /validate

  /** The four values `/validate` reads, after `str(...)` with their defaults. */
  datatype ValidateArgs = ValidateArgs(csvValue: string, webValue: string, fieldType: string, fieldName: string)

  /** The answer clean-up: strip, remove every "```json" and then every "```", strip again. */
  function CleanFences(t: string): (r: string)
    ensures |r| <= |t|
    // the result is already stripped: no whitespace is left at either end
    ensures Strip(r) == r
  {
    var r := Strip(RemoveAll(RemoveAll(Strip(t), "```json"), "```"));
    StripIdempotent(RemoveAll(RemoveAll(Strip(t), "```json"), "```"));
    r
  }

  /** `csv_value.lower().strip()`. */
  function Normalize(s: string): string {
    Strip(Lower(s))
  }

  function NoSpaces(s: string): string {
    RemoveAll(s, " ")
  }

  /** The string-comparison fallback, a rule table over the normalised values tried in order. */
  function CompareFallback(csv: string, web: string): (r: (bool, real))
    ensures Normalize(csv) == Normalize(web) ==> r == (true, 1.0)
    ensures Normalize(csv) != Normalize(web) && NoSpaces(Normalize(csv)) == NoSpaces(Normalize(web)) ==> r == (true, 0.9)
    ensures (Normalize(csv) != Normalize(web) && NoSpaces(Normalize(csv)) != NoSpaces(Normalize(web))
             && (Contains(Normalize(web), Normalize(csv)) || Contains(Normalize(csv), Normalize(web))))
            ==> r == (true, 0.7)
    // a match is a shared value modulo spaces or a containment either way
    ensures r.0 <==> NoSpaces(Normalize(csv)) == NoSpaces(Normalize(web))
                     || Contains(Normalize(web), Normalize(csv)) || Contains(Normalize(csv), Normalize(web))
    ensures !r.0 <==> r == (false, 0.5)
  {
    var c, w := Normalize(csv), Normalize(web);
    if c == w then SelfContained(c); (true, 1.0)
    else if NoSpaces(c) == NoSpaces(w) then (true, 0.9)
    else if Contains(w, c) || Contains(c, w) then (true, 0.7)
    else (false, 0.5)
  }

  /** The fallback does not depend on which value came from the CSV. */
  lemma FallbackSymmetric(csv: string, web: string)
    ensures CompareFallback(csv, web) == CompareFallback(web, csv)
  {
  }

  /** A stripped, non-empty value keeps its first character when spaces are removed. */
  lemma NoSpacesKeepsWord(s: string)
    requires s != [] && !IsSpace(s[0])
    ensures NoSpaces(s) != []
  {
    assert !IsPrefix(" ", s);
  }

  /**
   * By the containment rule a blank value matches every non-blank one with
   * confidence 0.7, while two blank values are equal.
   */
  lemma EmptySide(csv: string, web: string)
    requires Normalize(csv) == [] && Normalize(web) != []
    ensures CompareFallback(csv, web) == (true, 0.7)
    ensures CompareFallback(web, csv) == (true, 0.7)
  {
    var w := Normalize(web);
    assert !IsSpace(w[0]);
    NoSpacesKeepsWord(w);
    EmptyContained(w);
  }

  lemma BothBlank(csv: string, web: string)
    requires Normalize(csv) == [] && Normalize(web) == []
    ensures CompareFallback(csv, web) == (true, 1.0)
  {
  }

  /** Removing a pattern from a text ending with it, when the pattern's first character occurs nowhere before. */
  lemma {:induction false} RemoveBeforeTail(body: string, pat: string)
    requires |pat| > 0 && pat[0] !in body
    ensures RemoveAll(body + pat, pat) == body
    decreases |body|
  {
    if |body| == 0 {
      assert IsPrefix(pat, pat);
      assert pat[|pat|..] == [];
    } else {
      var s := body + pat;
      assert s[0] == body[0] != pat[0];
      assert !IsPrefix(pat, s);
      assert s[1..] == body[1..] + pat;
      RemoveBeforeTail(body[1..], pat);
      assert body == [body[0]] + body[1..];
    }
  }

  /** A text without backticks holds no fence. */
  lemma {:induction false} NoTickNoFence(s: string, fence: string)
    requires |fence| > 0 && fence[0] == '`' && '`' !in s
    ensures !Contains(s, fence)
  {
    if Contains(s, fence) {
      var k := ContainsWitness(s, fence);
      assert false;
    }
  }

  /**
   * An answer wrapped in a "```json ... ```" fence is reduced to its stripped
   * body, as long as the body itself holds no backtick.
   */
  lemma FencedAnswer(body: string)
    requires '`' !in body
    ensures CleanFences("```json" + body + "```") == Strip(body)
  {
    var t := "```json" + body + "```";
    assert StripLeft(t) == t;
    assert StripRight(t) == t;
    assert IsPrefix("```json", t);
    assert t[7..] == body + "```";
    var tail := body + "```";
    // a "```json" in the rest would have to start within the last three characters
    if Contains(tail, "```json") {
      var k := ContainsWitness(tail, "```json");
      assert false;
    }
    RemoveAbsent(tail, "```json");
    RemoveBeforeTail(body, "```");
  }

  /** A text without backticks passes the clean-up merely stripped. */
  lemma NoFenceOnlyStrips(t: string)
    requires '`' !in t
    ensures CleanFences(t) == Strip(t)
  {
    var s := Strip(t);
    assert '`' !in s by {
      assert StripLeft(t) == t[|t| - |StripLeft(t)|..];
      assert s == StripLeft(t)[..|s|];
    }
    NoTickNoFence(s, "```json");
    RemoveAbsent(s, "```json");
    NoTickNoFence(s, "```");
    RemoveAbsent(s, "```");
    StripIdempotent(t);
  }

  lemma StripIdempotent(t: string)
    ensures Strip(Strip(t)) == Strip(t)
  {
    var s := Strip(t);
    if s != [] {
      assert StripRight(s) == s;
      assert StripLeft(s) == s;
    }
  }

  /** The decoded answer is used only when it holds all three keys. */
  predicate Accepted(obj: JsonObject) {
    "match" in obj && "confidence" in obj && "reasoning" in obj
  }

  /**
   * `float(min(max(confidence, 0.0), 1.0))` on a decoded value: numbers and
   * booleans compare with floats, anything else makes the handler raise (None).
   */
  function ConfidenceOf(v: JsonValue): (c: Option<real>)
    ensures c.Some? <==> v.JNum? || v.JBool?
    ensures c.Some? ==> 0.0 <= c.value <= 1.0
    ensures v.JNum? && 0.0 <= v.n <= 1.0 ==> c == Some(v.n)
    ensures v.JBool? ==> c == Some(if v.b then 1.0 else 0.0)
  {
    match v
    case JNum(x) => Some(ClampReal(x, 0.0, 1.0))
    case JBool(b) => Some(if b then 1.0 else 0.0)
    case _ => None
  }

  /** Where a verdict's reasoning came from. */
  datatype Reasoning = FromModel(reasoning: JsonValue) | FromFallback | FromError | NoVerdict

  datatype Verdict = Verdict(code: nat, matched: bool, confidence: real, tokens: nat, reasoning: Reasoning)

  /**
   * The verdict `/validate` gives once a generation has returned `text`
   * using `tokens` tokens, for the values `args`.
   */
  function DecideVerdict(text: string, tokens: nat, args: ValidateArgs, parse: string -> Option<JsonObject>): (v: Verdict)
    ensures 0.0 <= v.confidence <= 1.0
    ensures v.code == 200 || v == Verdict(500, false, 0.0, 0, FromError)
    ensures var json := ExtractJson(CleanFences(text), parse);
      // a decoded answer with all three keys decides the verdict
      (json.Some? && Accepted(json.value) && ConfidenceOf(json.value["confidence"]).Some? ==>
         v == Verdict(200, Truthy(json.value["match"]), ConfidenceOf(json.value["confidence"]).value,
                      tokens, FromModel(json.value["reasoning"])))
      // a confidence that does not compare with a float makes the handler fail
      && (json.Some? && Accepted(json.value) && ConfidenceOf(json.value["confidence"]).None? ==> v.code == 500)
      // otherwise the values themselves are compared
      && (!(json.Some? && Accepted(json.value)) ==>
         var (m, c) := CompareFallback(args.csvValue, args.webValue);
         v == Verdict(200, m, c, tokens, FromFallback))
  {
    var json := ExtractJson(CleanFences(text), parse);
    if json.Some? && Accepted(json.value) then
      match ConfidenceOf(json.value["confidence"])
      case None => Verdict(500, false, 0.0, 0, FromError)
      case Some(c) => Verdict(200, Truthy(json.value["match"]), c, tokens, FromModel(json.value["reasoning"]))
    else
      var (m, c) := CompareFallback(args.csvValue, args.webValue);
      Verdict(200, m, c, tokens, FromFallback)
  }

  /**
   * `/validate`: `body` is None when the request is not JSON or is empty,
   * `prompt` is the validation prompt built from the values, `parse` stands
   * for `json.loads` on the candidate span; the manager state after.
   */
  function ValidateRoute(s: SafeState, body: Option<ValidateArgs>, prompt: string, probe: Completion, answer: Completion,
                         parse: string -> Option<JsonObject>): (r: (Verdict, SafeState))
    ensures body.None? ==> r == (Verdict(400, false, 0.0, 0, NoVerdict), s)
    // every answer carries a confidence in [0, 1]; every failure is a non-match with confidence 0.0
    ensures 0.0 <= r.0.confidence <= 1.0
    ensures r.0.code == 500 ==> r.0 == Verdict(500, false, 0.0, 0, FromError)
    ensures body.Some? ==> var g := SafeGenerate(s, prompt, ValidateTokens, DefaultTemperature, probe, answer);
      r.1 == g.state
      && (g.result.Err? ==> r.0 == Verdict(500, false, 0.0, 0, FromError))
      && (g.result.Ok? ==> r.0 == DecideVerdict(g.result.value.text, g.result.value.tokens, body.value, parse))
  {
    if body.None? then (Verdict(400, false, 0.0, 0, NoVerdict), s)
    else
      var g := SafeGenerate(s, prompt, ValidateTokens, DefaultTemperature, probe, answer);
      match g.result
      case Err(_) => (Verdict(500, false, 0.0, 0, FromError), g.state)
      case Ok(gen) => (DecideVerdict(gen.text, gen.tokens, body.value, parse), g.state)
  }

  // ---------------------------------------------------------------------------
  // /health

  datatype HealthReply = HealthReply(code: nat, report: Option<HealthReport>, modelLoaded: bool, modelIntegrity: bool)

  /**
   * `/health` at time `now`: `probe` is the engine's answer to the integrity
   * check and `raised` the message of an exception thrown while the status
   * is gathered (None when none is). The reply and the monitor after.
   */
  function HealthRoute(m: Monitor, s: SafeState, now: real, probe: Completion, raised: Option<string>)
    : (r: (HealthReply, Monitor))
    ensures raised.None? ==> r.0.code == 200 && r.0.report == Some(Report(m, now)) && r.1 == Record(m, true, None, now)
    ensures raised.Some? ==> r.0.code == 500 && r.0.report.None? && r.1 == Record(m, false, raised, now)
    ensures r.0.modelLoaded == s.modelLoaded
    // integrity is only probed, and only claimed, for a loaded model
    ensures raised.None? ==> (r.0.modelIntegrity <==> s.modelLoaded && s.llm.Some? && HasChoice(probe))
  {
    match raised
    case Some(_) => (HealthReply(500, None, s.modelLoaded, false), Record(m, false, raised, now))
    case None =>
      var integrity := s.modelLoaded && s.llm.Some? && HasChoice(probe);
      (HealthReply(200, Some(Report(m, now)), s.modelLoaded, integrity), Record(m, true, None, now))
  }

  /**
   * Every `/health` call adds exactly one request record, the newest, and an
   * error record exactly when it fails.
   */
  lemma HealthRecordsOnce(m: Monitor, s: SafeState, now: real, probe: Completion, raised: Option<string>)
    requires Bounded(m)
    ensures var after := HealthRoute(m, s, now, probe, raised).1;
      var rs := after.recentRequests;
      |rs| == Min(|m.recentRequests| + 1, MaxRequests) && rs[|rs| - 1] == RequestRecord(now, raised.None?)
      && rs[..|rs| - 1] == KeepLast(m.recentRequests, MaxRequests - 1)
      && (raised.None? ==> after.recentErrors == m.recentErrors)
      && (raised.Some? ==> var es := after.recentErrors;
            |es| == Min(|m.recentErrors| + 1, MaxErrors) && es[|es| - 1] == ErrorRecord(now, raised))
  {
    var after := HealthRoute(m, s, now, probe, raised).1;
    assert after.recentRequests == KeepLast(m.recentRequests + [RequestRecord(now, raised.None?)], MaxRequests);
    KeepLastSnoc(m.recentRequests, RequestRecord(now, raised.None?), MaxRequests);
    if raised.Some? {
      assert after.recentErrors == KeepLast(m.recentErrors + [ErrorRecord(now, raised)], MaxErrors);
      KeepLastSnoc(m.recentErrors, ErrorRecord(now, raised), MaxErrors);
    }
  }
}
