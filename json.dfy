/**
 * Decoded JSON values as the servers see them after `json.loads`, Python's
 * truthiness of such values, and the candidate-span search that
 * `extract_json_from_text` performs with the pattern `\{[^}]+\}` before it
 * hands the first span to the JSON decoder.
 */
module Json {
  import opened Common
  import opened Text

  datatype JsonValue =
    | JNull
    | JBool(b: bool)
    | JNum(n: real)
    | JStr(s: string)
    | JArray(items: seq<JsonValue>)
    | JObject(fields: map<string, JsonValue>)

  type JsonObject = map<string, JsonValue>

  /** Python's `bool(v)` for a decoded JSON value. */
  predicate Truthy(v: JsonValue) {
    match v
    case JNull => false
    case JBool(b) => b
    case JNum(n) => n != 0.0
    case JStr(s) => s != []
    case JArray(items) => items != []
    case JObject(fields) => fields != map[]
  }

  /** The pattern `\{[^}]+\}` matches exactly `s[i..k+1]`. */
  ghost predicate SpanMatches(s: string, i: nat, k: nat) {
    i + 2 <= k < |s| && s[i] == '{' && s[k] == '}' && forall m :: i < m < k ==> s[m] != '}'
  }

  /** Where a match of the pattern that starts at `i` ends, if one does. */
  function MatchEnd(s: string, i: nat): (r: Option<nat>)
    ensures r.Some? ==> SpanMatches(s, i, r.value)
    ensures r.None? ==> forall k: nat :: !SpanMatches(s, i, k)
  {
    if i + 1 < |s| && s[i] == '{' && s[i + 1] != '}' then Find(s, '}', i + 1) else None
  }

  /** The leftmost match of the pattern starting at or after `from`, as (start, end). */
  function FirstSpan(s: string, from: nat): (r: Option<(nat, nat)>)
    ensures r.Some? ==> from <= r.value.0 && SpanMatches(s, r.value.0, r.value.1)
    ensures r.Some? ==> forall j: nat, k: nat :: from <= j < r.value.0 ==> !SpanMatches(s, j, k)
    ensures r.None? ==> forall j: nat, k: nat :: from <= j ==> !SpanMatches(s, j, k)
    decreases |s| - from
  {
    if from >= |s| then None
    else
      match MatchEnd(s, from)
      case Some(k) => Some((from, k))
      case None => FirstSpan(s, from + 1)
  }

  /**
   * The first element of `re.findall(r"\{[^}]+\}", s)`: the span from the
   * leftmost `{` that is followed by at least one character other than `}`
   * up to the first `}` after it.
   */
  function JsonCandidate(s: string): (r: Option<string>)
    ensures r.None? <==> forall i: nat, k: nat :: !SpanMatches(s, i, k)
    ensures r.Some? ==> exists i: nat, k: nat :: SpanMatches(s, i, k) && r.value == s[i..k + 1]
                          && forall j: nat, k': nat :: j < i ==> !SpanMatches(s, j, k')
  {
    match FirstSpan(s, 0)
    case None => None
    case Some((i, k)) => Some(s[i..k + 1])
  }

  /** `extract_json_from_text`: the decoded first candidate span, or None. */
  function ExtractJson(s: string, parse: string -> Option<JsonObject>): (r: Option<JsonObject>)
    // without a candidate span the decoder is never consulted
    ensures JsonCandidate(s).None? ==> r.None?
    // a result is the decoding of the first candidate span, and an undecodable candidate gives None
    ensures r.Some? ==> JsonCandidate(s).Some? && parse(JsonCandidate(s).value) == r
    ensures JsonCandidate(s).Some? && parse(JsonCandidate(s).value).None? ==> r.None?
  {
    match JsonCandidate(s)
    case None => None
    case Some(c) => parse(c)
  }

  /** A candidate is never empty inside and never holds a `}` before its last character. */
  lemma CandidateShape(s: string)
    requires JsonCandidate(s).Some?
    ensures var c := JsonCandidate(s).value;
      |c| >= 3 && c[0] == '{' && c[|c| - 1] == '}'
      && forall m :: 0 < m < |c| - 1 ==> c[m] != '}'
  {
    var r := FirstSpan(s, 0);
    var i, k := r.value.0, r.value.1;
    var c := s[i..k + 1];
    assert c == JsonCandidate(s).value;
    forall m | 0 < m < |c| - 1 ensures c[m] != '}' {
      assert c[m] == s[i + m];
    }
  }

  /** When no span matches the decoder is never consulted and the result is None. */
  lemma NoCandidateNoJson(s: string, parse: string -> Option<JsonObject>)
    requires forall i: nat, k: nat :: !SpanMatches(s, i, k)
    ensures ExtractJson(s, parse) == None
  {
  }

  /** `{}` is not a candidate: the pattern needs a character between the braces. */
  lemma EmptyBracesNoCandidate(parse: string -> Option<JsonObject>)
    ensures JsonCandidate("{}") == None
    ensures ExtractJson("x {} y", parse) == None
  {
    assert forall i: nat, k: nat :: !SpanMatches("{}", i, k);
    var s := "x {} y";
    assert forall i: nat, k: nat :: !SpanMatches(s, i, k);
  }
}
