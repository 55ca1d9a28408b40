/**
 * The mock validator of the test harness: a fixed rule table over the two
 * lowercased, stripped values, chosen by the field type (email, number or
 * text), that stands in for the language model.
 */
module MockValidate {
  import opened Common
  import opened Text

  /** The request values, after `str(...)`; `fieldType` is None when the key is absent. */
  datatype MockArgs = MockArgs(csvValue: string, webValue: string, fieldType: Option<string>)

  datatype MockVerdict = MockVerdict(code: nat, matched: bool, confidence: real)

  /** `str(value).lower().strip()`, applied to both values before any rule. */
  function Normalize(s: string): string {
    Strip(Lower(s))
  }

  function Words(s: string): set<string> {
    set w | w in Split(s)
  }

  /** Emails match only when equal. */
  function EmailRule(c: string, w: string): (r: (bool, real))
    ensures r.0 <==> c == w
    ensures r.1 == (if r.0 then 0.95 else 0.1)
  {
    var m := c == w;
    (m, if m then 0.95 else 0.1)
  }

  /**
   * Numbers: `parseFloat` stands for `float(...)`, None when it raises. Two
   * numbers match within 0.001; otherwise the values are compared as text.
   */
  function NumberRule(c: string, w: string, parseFloat: string -> Option<real>): (r: (bool, real))
    ensures parseFloat(c).Some? && parseFloat(w).Some? ==>
              var d := parseFloat(c).value - parseFloat(w).value;
              (r.0 <==> -0.001 < d < 0.001) && r.1 == (if r.0 then 0.95 else 0.1)
    ensures parseFloat(c).None? || parseFloat(w).None? ==>
              (r.0 <==> c == w) && r.1 == (if r.0 then 0.8 else 0.2)
  {
    match (parseFloat(c), parseFloat(w))
    case (Some(x), Some(y)) =>
      var d := x - y;
      var m := (if d < 0.0 then -d else d) < 0.001;
      (m, if m then 0.95 else 0.1)
    case _ =>
      var m := c == w;
      (m, if m then 0.8 else 0.2)
  }

  /** Text: equal, then containment either way, then a shared word between two values longer than three characters. */
  function TextRule(c: string, w: string): (r: (bool, real))
    ensures c == w ==> r == (true, 0.95)
    ensures c != w && (Contains(w, c) || Contains(c, w)) ==> r == (true, 0.8)
    ensures r.0 <==> Contains(w, c) || Contains(c, w) || (|c| > 3 && |w| > 3 && Words(c) * Words(w) != {})
    // a match by a shared word alone has confidence exactly 0.7; no match is less certain than that
    ensures c != w && !Contains(w, c) && !Contains(c, w) && r.0 ==> r.1 == 0.7
    ensures r.0 ==> r.1 >= 0.7
    ensures !r.0 ==> r.1 == (if |c| > 3 && |w| > 3 then 0.2 else 0.1)
  {
    if c == w then SelfContained(c); (true, 0.95)
    else if Contains(w, c) || Contains(c, w) then (true, 0.8)
    else if |c| > 3 && |w| > 3 then
      if Words(c) * Words(w) != {} then (true, 0.7) else (false, 0.2)
    else (false, 0.1)
  }

  /** `/validate` of the mock server; `body` is None when it is missing or empty. */
  function Validate(body: Option<MockArgs>, parseFloat: string -> Option<real>): (r: MockVerdict)
    ensures body.None? ==> r == MockVerdict(400, false, 0.0)
    ensures body.Some? ==> r.code == 200
    ensures body.Some? ==> var c, w := Normalize(body.value.csvValue), Normalize(body.value.webValue);
      var kind := body.value.fieldType.GetOr("text");
      (r.matched, r.confidence) ==
        if kind == "email" then EmailRule(c, w)
        else if kind == "number" then NumberRule(c, w, parseFloat)
        else TextRule(c, w)
  {
    match body
    case None => MockVerdict(400, false, 0.0)
    case Some(args) =>
      var c, w := Normalize(args.csvValue), Normalize(args.webValue);
      var (m, conf) :=
        match args.fieldType.GetOr("text")
        case "email" => EmailRule(c, w)
        case "number" => NumberRule(c, w, parseFloat)
        case _ => TextRule(c, w);
      MockVerdict(200, m, conf)
  }

  /** The verdict ignores case in both values. */
  lemma IgnoresCase(args: MockArgs, parseFloat: string -> Option<real>)
    ensures Validate(Some(args.(csvValue := Upper(args.csvValue), webValue := Upper(args.webValue))), parseFloat)
            == Validate(Some(args), parseFloat)
  {
    LowerUpper(args.csvValue);
    LowerUpper(args.webValue);
  }

  /** Which value came from the CSV does not matter for text. */
  lemma TextSymmetric(c: string, w: string)
    ensures TextRule(c, w) == TextRule(w, c)
  {
  }

  /** A value that is blank after stripping is contained in every other, so text matches it with confidence at least 0.8. */
  lemma BlankTextMatches(csv: string, web: string)
    requires Normalize(csv) == []
    ensures TextRule(Normalize(csv), Normalize(web)).0
    ensures TextRule(Normalize(csv), Normalize(web)).1 >= 0.8
  {
    EmptyContained(Normalize(web));
  }
}
