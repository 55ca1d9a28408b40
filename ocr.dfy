/**
 * The OCR service around Tesseract: the crop-box clamp of the
 * preprocessing step, the Tesseract configuration string, the filtering of
 * recognised boxes into words and their grouping into lines, the removal of
 * a `data:` URL prefix, and the per-image assembly of a batch.
 *
 * Tesseract and the image libraries are oracles: `image_to_data` with
 * `image_to_string` is one function from the configuration string to the
 * recognised boxes and text, base64 decoding and image verification are
 * functions on the request's strings and bytes.
 */
module Ocr {
  import opened Common
  import opened Text

  // ---------------------------------------------------------------------------
  // Crop region

  datatype Region = Region(x: int, y: int, w: int, h: int)

  function Max(a: int, b: int): int {
    if a >= b then a else b
  }

  /**
   * The clamp applied to a requested crop of an `imgW` by `imgH` image:
   * the corner inside the image, width and height at least 1 and, for a
   * corner strictly inside, no further than the image's edge.
   */
  function ClampRegion(x: int, y: int, w: int, h: int, imgW: nat, imgH: nat): (r: Region)
    ensures 0 <= r.x <= imgW && 0 <= r.y <= imgH && r.w >= 1 && r.h >= 1
    ensures r.x < imgW ==> r.x + r.w <= imgW
    ensures r.y < imgH ==> r.y + r.h <= imgH
    // a region already inside the image is kept as requested
    ensures 0 <= x && 1 <= w && x + w <= imgW && 0 <= y && 1 <= h && y + h <= imgH ==> r == Region(x, y, w, h)
    // a corner on or past the right or bottom edge still gets a width or height of 1
    ensures x >= imgW ==> r.x == imgW && r.w == 1
    ensures y >= imgH ==> r.y == imgH && r.h == 1
  {
    var cx := Max(0, Min(x, imgW));
    var cy := Max(0, Min(y, imgH));
    Region(cx, cy, Max(1, Min(w, imgW - cx)), Max(1, Min(h, imgH - cy)))
  }

  predicate HasBox(crop: map<string, int>) {
    "left" in crop && "top" in crop && "width" in crop && "height" in crop
  }

  /** The crop the preprocessing applies: only a `crop_region` holding all four keys is used. */
  function CropOf(crop: Option<map<string, int>>, imgW: nat, imgH: nat): (r: Option<Region>)
    ensures r.Some? <==> crop.Some? && HasBox(crop.value)
    ensures r.Some? ==> r.value == ClampRegion(crop.value["left"], crop.value["top"], crop.value["width"],
                                               crop.value["height"], imgW, imgH)
  {
    if crop.Some? && crop.value != map[] && HasBox(crop.value) then
      var c := crop.value;
      Some(ClampRegion(c["left"], c["top"], c["width"], c["height"], imgW, imgH))
    else None
  }

  // ---------------------------------------------------------------------------
  // Tesseract configuration

  /**
   * The recognition options, each None when its key is absent; numbers are
   * given in the form they take inside the configuration string.
   */
  datatype OcrOptions = OcrOptions(language: Option<string>, psm: Option<string>, oem: Option<string>,
                                   whitelist: Option<string>, blacklist: Option<string>)

  const NoOptions: OcrOptions := OcrOptions(None, None, None, None, None)

  /** The parts of the configuration, in the order they are appended. */
  function ConfigParts(o: OcrOptions): (parts: seq<string>)
    ensures |parts| == 3 + (if o.whitelist.Some? then 1 else 0) + (if o.blacklist.Some? then 1 else 0)
    ensures parts[0] == "-l " + o.language.GetOr("eng")
    ensures parts[1] == "--psm " + o.psm.GetOr("6")
    ensures parts[2] == "--oem " + o.oem.GetOr("3")
    ensures o.whitelist.Some? ==> parts[3] == "-c tessedit_char_whitelist=" + o.whitelist.value
    ensures o.blacklist.Some? ==> parts[|parts| - 1] == "-c tessedit_char_blacklist=" + o.blacklist.value
  {
    ["-l " + o.language.GetOr("eng"), "--psm " + o.psm.GetOr("6"), "--oem " + o.oem.GetOr("3")]
    + (if o.whitelist.Some? then ["-c tessedit_char_whitelist=" + o.whitelist.value] else [])
    + (if o.blacklist.Some? then ["-c tessedit_char_blacklist=" + o.blacklist.value] else [])
  }

  /** `' '.join(config_parts)`. */
  function ConfigString(o: OcrOptions): (c: string)
    // with neither list the string is the three settings separated by single spaces
    ensures o.whitelist.None? && o.blacklist.None? ==>
              c == "-l " + o.language.GetOr("eng") + " " + "--psm " + o.psm.GetOr("6") + " " + "--oem " + o.oem.GetOr("3")
  {
    JoinThree(ConfigParts(o), " ");
    Join(ConfigParts(o), " ")
  }

  lemma JoinThree(parts: seq<string>, sep: string)
    ensures |parts| == 3 ==> Join(parts, sep) == parts[0] + sep + parts[1] + sep + parts[2]
  {
    if |parts| == 3 {
      assert parts[1..][1..] == parts[2..];
      assert Join(parts[2..], sep) == parts[2];
    }
  }

  /** With no options the configuration is English, page mode 6, engine mode 3. */
  lemma DefaultConfig()
    ensures ConfigString(NoOptions) == "-l eng --psm 6 --oem 3"
  {
  }

  /** A whitelist adds its clause at the end, after one space, and changes nothing before it. */
  lemma WhitelistClause(o: OcrOptions, w: string)
    requires o.whitelist.None? && o.blacklist.None?
    ensures ConfigString(o.(whitelist := Some(w))) == ConfigString(o) + " " + "-c tessedit_char_whitelist=" + w
  {
    assert ConfigParts(o.(whitelist := Some(w))) == ConfigParts(o) + ["-c tessedit_char_whitelist=" + w];
    JoinSnoc(ConfigParts(o), "-c tessedit_char_whitelist=" + w, " ");
  }

  /** A blacklist comes last, after the whitelist clause when there is one. */
  lemma BlacklistClause(o: OcrOptions, b: string)
    requires o.blacklist.None?
    ensures ConfigString(o.(blacklist := Some(b))) == ConfigString(o) + " " + "-c tessedit_char_blacklist=" + b
  {
    assert ConfigParts(o.(blacklist := Some(b))) == ConfigParts(o) + ["-c tessedit_char_blacklist=" + b];
    JoinSnoc(ConfigParts(o), "-c tessedit_char_blacklist=" + b, " ");
  }

  // ---------------------------------------------------------------------------
  // Words and lines

  /** One row of `image_to_data`: the recognised text, its confidence and box, and its line number. */
  datatype TessBox = TessBox(text: string, conf: real, left: int, top: int, width: int, height: int, lineNum: int)

  datatype BBox = BBox(x0: int, y0: int, x1: int, y1: int)
  datatype OcrWord = OcrWord(text: string, confidence: real, bbox: BBox)
  datatype LineGroup = LineGroup(words: seq<OcrWord>, bbox: BBox)
  datatype OcrLine = OcrLine(text: string, confidence: real, bbox: BBox)

  /** Python's `int(x)` on a float: truncation toward zero. */
  function Trunc(x: real): int {
    if x >= 0.0 then x.Floor else -((-x).Floor)
  }

  /** `int(conf) > 0`: the boxes that become words. */
  predicate Confident(b: TessBox) {
    Trunc(b.conf) > 0
  }

  /** A box becomes a word exactly when its confidence is at least 1. */
  lemma ConfidentIff(b: TessBox)
    ensures Confident(b) <==> b.conf >= 1.0
  {
  }

  function BoxOf(b: TessBox): (r: BBox)
    ensures r.x1 - r.x0 == b.width && r.y1 - r.y0 == b.height
  {
    BBox(b.left, b.top, b.left + b.width, b.top + b.height)
  }

  function WordOf(b: TessBox): OcrWord {
    OcrWord(b.text, b.conf / 100.0, BoxOf(b))
  }

  /** The words of the boxes, in input order: one per confident box. */
  function Words(bs: seq<TessBox>): (ws: seq<OcrWord>)
    ensures |ws| <= |bs|
    // every word comes from a box Tesseract was at least 1% sure of
    ensures forall k :: 0 <= k < |ws| ==> ws[k].confidence >= 0.01
    decreases |bs|
  {
    if |bs| == 0 then []
    else
      var last := bs[|bs| - 1];
      Words(bs[..|bs| - 1]) + (if Confident(last) then [WordOf(last)] else [])
  }

  /** The `lines` dictionary the loop builds: words keyed by line number, the box of each line's first word. */
  function LinesOf(bs: seq<TessBox>): (lines: map<int, LineGroup>)
    // every line holds at least one word, and its box is the box of its first word
    ensures forall k :: k in lines ==> |lines[k].words| >= 1 && lines[k].bbox == lines[k].words[0].bbox
    decreases |bs|
  {
    if |bs| == 0 then map[]
    else
      var acc := LinesOf(bs[..|bs| - 1]);
      var last := bs[|bs| - 1];
      if !Confident(last) then acc
      else
        var w := WordOf(last);
        if last.lineNum in acc then acc[last.lineNum := LineGroup(acc[last.lineNum].words + [w], acc[last.lineNum].bbox)]
        else acc[last.lineNum := LineGroup([w], w.bbox)]
  }

  /** The boxes with line number `k`, in input order. */
  function OnLine(bs: seq<TessBox>, k: int): (r: seq<TessBox>)
    ensures |r| <= |bs|
    decreases |bs|
  {
    if |bs| == 0 then []
    else OnLine(bs[..|bs| - 1], k) + (if bs[|bs| - 1].lineNum == k then [bs[|bs| - 1]] else [])
  }

  /**
   * Grouping is by line number alone: a line exists exactly when some
   * confident box has its number, it holds the words of those boxes in
   * input order, and its box is its first word's box, not their union.
   */
  lemma {:induction false} LineGrouping(bs: seq<TessBox>, k: int)
    ensures k in LinesOf(bs) <==> Words(OnLine(bs, k)) != []
    ensures k in LinesOf(bs) ==>
              LinesOf(bs)[k].words == Words(OnLine(bs, k)) && LinesOf(bs)[k].bbox == LinesOf(bs)[k].words[0].bbox
    decreases |bs|
  {
    if |bs| > 0 {
      var init, last := bs[..|bs| - 1], bs[|bs| - 1];
      LineGrouping(init, k);
      LinesStep(bs, k);
      WordsOnLineStep(bs, k);
      var acc := LinesOf(init);
      if last.lineNum == k && Confident(last) && k in acc {
        assert (acc[k].words + [WordOf(last)])[0] == acc[k].words[0];
      }
    }
  }

  /** What the last box does to the line `k`: a confident box on it adds its word, any other box leaves it alone. */
  lemma {:induction false} LinesStep(bs: seq<TessBox>, k: int)
    requires |bs| > 0
    ensures var acc, last := LinesOf(bs[..|bs| - 1]), bs[|bs| - 1];
      && (last.lineNum == k && Confident(last) ==>
            k in LinesOf(bs)
            && LinesOf(bs)[k].words == (if k in acc then acc[k].words else []) + [WordOf(last)]
            && LinesOf(bs)[k].bbox == (if k in acc then acc[k].bbox else WordOf(last).bbox))
      && (!(last.lineNum == k && Confident(last)) ==>
            (k in LinesOf(bs) <==> k in acc) && (k in acc ==> LinesOf(bs)[k] == acc[k]))
  {
  }

  /** The words on line `k` after one more box: those before, then its word when it is a confident box on that line. */
  lemma {:induction false} WordsOnLineStep(bs: seq<TessBox>, k: int)
    requires |bs| > 0
    ensures var init, last := bs[..|bs| - 1], bs[|bs| - 1];
      Words(OnLine(bs, k))
      == Words(OnLine(init, k)) + (if last.lineNum == k && Confident(last) then [WordOf(last)] else [])
  {
    var init, last := bs[..|bs| - 1], bs[|bs| - 1];
    var on := OnLine(bs, k);
    if last.lineNum == k {
      assert on == OnLine(init, k) + [last];
      assert on[..|on| - 1] == OnLine(init, k);
    } else {
      assert on == OnLine(init, k);
    }
  }

  function Sum(xs: seq<real>): real
    decreases |xs|
  {
    if |xs| == 0 then 0.0 else Sum(xs[..|xs| - 1]) + xs[|xs| - 1]
  }

  /** `sum(xs) / len(xs) if xs else 0`. */
  function Mean(xs: seq<real>): real {
    if |xs| == 0 then 0.0 else Sum(xs) / (|xs| as real)
  }

  lemma {:induction false} SumBounds(xs: seq<real>, lo: real, hi: real)
    requires forall i :: 0 <= i < |xs| ==> lo <= xs[i] <= hi
    ensures (|xs| as real) * lo <= Sum(xs) <= (|xs| as real) * hi
    decreases |xs|
  {
    if |xs| > 0 {
      var init := xs[..|xs| - 1];
      SumBounds(init, lo, hi);
      var n := |init| as real;
      assert |xs| as real == n + 1.0;
      assert Sum(xs) == Sum(init) + xs[|xs| - 1];
      assert (n + 1.0) * lo == n * lo + lo && (n + 1.0) * hi == n * hi + hi;
    }
  }

  /** A mean lies between the bounds of its values, and is 0 without values. */
  lemma MeanBounds(xs: seq<real>, lo: real, hi: real)
    requires lo <= 0.0 <= hi
    requires forall i :: 0 <= i < |xs| ==> lo <= xs[i] <= hi
    ensures lo <= Mean(xs) <= hi
  {
    if |xs| > 0 {
      SumBounds(xs, lo, hi);
      var n := |xs| as real;
      assert Mean(xs) * n == Sum(xs);
    }
  }

  function Texts(ws: seq<OcrWord>): (r: seq<string>)
    ensures |r| == |ws| && forall i :: 0 <= i < |ws| ==> r[i] == ws[i].text
  {
    seq(|ws|, i requires 0 <= i < |ws| => ws[i].text)
  }

  function Confidences(ws: seq<OcrWord>): (r: seq<real>)
    ensures |r| == |ws| && forall i :: 0 <= i < |ws| ==> r[i] == ws[i].confidence
  {
    seq(|ws|, i requires 0 <= i < |ws| => ws[i].confidence)
  }

  lemma MeanOfOne(xs: seq<real>)
    ensures |xs| == 1 ==> Mean(xs) == xs[0]
  {
    if |xs| == 1 {
      assert xs[..|xs| - 1] == [];
      assert Sum(xs) == xs[0];
    }
  }

  /** A line of the result: its words' texts joined by single spaces, their mean confidence, the line's box. */
  function LineOf(g: LineGroup): (l: OcrLine)
    ensures l.bbox == g.bbox
    // a line of one word is that word, with its confidence
    ensures |g.words| == 1 ==> l.text == g.words[0].text && l.confidence == g.words[0].confidence
    // a line without words reads as empty with confidence 0
    ensures g.words == [] ==> l.text == [] && l.confidence == 0.0
  {
    MeanOfOne(Confidences(g.words));
    OcrLine(Join(Texts(g.words), " "), Mean(Confidences(g.words)), g.bbox)
  }

  /** The line numbers in the order they first occur among the confident boxes: the `lines` dictionary's key order. */
  function LineOrder(bs: seq<TessBox>): seq<int>
    decreases |bs|
  {
    if |bs| == 0 then []
    else
      var prev := LineOrder(bs[..|bs| - 1]);
      var last := bs[|bs| - 1];
      if Confident(last) && last.lineNum !in prev then prev + [last.lineNum] else prev
  }

  predicate Distinct(ks: seq<int>) {
    forall i, j :: 0 <= i < j < |ks| ==> ks[i] != ks[j]
  }

  predicate Ascending(ks: seq<int>) {
    forall i, j :: 0 <= i < j < |ks| ==> ks[i] < ks[j]
  }

  /** The key order lists every line number of the dictionary exactly once. */
  lemma {:induction false} LineOrderKeys(bs: seq<TessBox>)
    ensures forall k :: k in LineOrder(bs) <==> k in LinesOf(bs)
    ensures Distinct(LineOrder(bs))
    decreases |bs|
  {
    if |bs| > 0 {
      LineOrderKeys(bs[..|bs| - 1]);
    }
  }

  /** The loop over the rows of `image_to_data`: the `words` list and the `lines` dictionary with its key order. */
  method GroupWords(bs: seq<TessBox>) returns (words: seq<OcrWord>, lines: map<int, LineGroup>, order: seq<int>)
    ensures words == Words(bs) && lines == LinesOf(bs) && order == LineOrder(bs)
  {
    words, lines, order := [], map[], [];
    for i := 0 to |bs|
      invariant words == Words(bs[..i])
      invariant lines == LinesOf(bs[..i])
      invariant order == LineOrder(bs[..i])
      invariant forall k :: k in order <==> k in lines
    {
      LineOrderKeys(bs[..i]);
      var b := bs[i];
      assert bs[..i + 1][..i] == bs[..i] && bs[..i + 1][i] == b;
      if Trunc(b.conf) > 0 {
        var w := OcrWord(b.text, b.conf / 100.0, BBox(b.left, b.top, b.left + b.width, b.top + b.height));
        assert w == WordOf(b);
        words := words + [w];
        if b.lineNum !in lines {
          assert [] + [w] == [w];
          lines := lines[b.lineNum := LineGroup([], w.bbox)];
          order := order + [b.lineNum];
        }
        lines := lines[b.lineNum := LineGroup(lines[b.lineNum].words + [w], lines[b.lineNum].bbox)];
      }
    }
    assert bs[..|bs|] == bs;
  }

  /** `k` put into its place in an ascending sequence that lacks it. */
  function Insert(ks: seq<int>, k: int): (r: seq<int>)
    requires Ascending(ks) && k !in ks
    ensures Ascending(r) && |r| == |ks| + 1
    ensures forall x :: x in r <==> x in ks || x == k
    decreases |ks|
  {
    if |ks| == 0 then [k]
    else if k < ks[0] then [k] + ks
    else
      var rest := Insert(ks[1..], k);
      assert forall j :: 0 <= j < |rest| ==> ks[0] < rest[j] by {
        forall j | 0 <= j < |rest| ensures ks[0] < rest[j] {
          assert rest[j] in rest;
        }
      }
      var r := [ks[0]] + rest;
      assert forall j :: 1 <= j < |r| ==> r[j] == rest[j - 1];
      r
  }

  /**
   * `sorted(lines.items())` turned into the result's lines: `order` is the
   * dictionary's key order; every line number once, in ascending order,
   * each with its line.
   */
  method EmitLines(lines: map<int, LineGroup>, order: seq<int>) returns (keys: seq<int>, out: seq<OcrLine>)
    requires Distinct(order) && forall k :: k in order <==> k in lines
    ensures Ascending(keys) && |keys| == |order|
    ensures forall k :: k in keys <==> k in lines
    ensures |out| == |keys| && forall i :: 0 <= i < |keys| ==> keys[i] in lines && out[i] == LineOf(lines[keys[i]])
  {
    keys := [];
    for i := 0 to |order|
      invariant Ascending(keys) && |keys| == i
      invariant forall k :: k in keys <==> k in order[..i]
    {
      assert order[i] !in order[..i];
      keys := Insert(keys, order[i]);
      assert order[..i + 1] == order[..i] + [order[i]];
    }
    assert order[..|order|] == order;
    assert forall k :: k in keys ==> k in lines;
    out := [];
    for i := 0 to |keys|
      invariant |out| == i && forall j :: 0 <= j < i ==> out[j] == LineOf(lines[keys[j]])
    {
      out := out + [LineOf(lines[keys[i]])];
    }
  }

  /** What Tesseract returns for one image: the rows of `image_to_data` and the text of `image_to_string`. */
  datatype TessOutput = TessOutput(boxes: seq<TessBox>, text: string)

  /** The result `perform_ocr` returns, without its timing and image-size fields. */
  datatype OcrResult = OcrResult(text: string, confidence: real, words: seq<OcrWord>, lines: seq<OcrLine>, language: string)

  /** `out` lists the lines of `lines` in the ascending order `keys` of their numbers. */
  ghost predicate ListedBy(lines: map<int, LineGroup>, keys: seq<int>, out: seq<OcrLine>) {
    Ascending(keys) && (forall k :: k in keys <==> k in lines)
    && |out| == |keys| && forall i :: 0 <= i < |keys| ==> out[i] == LineOf(lines[keys[i]])
  }

  /**
   * `perform_ocr` after preprocessing: `tesseract` stands for both Tesseract
   * calls on the processed image with the given configuration string.
   */
  method PerformOcr(options: OcrOptions, tesseract: string -> TessOutput) returns (r: OcrResult, config: string)
    ensures config == ConfigString(options)
    ensures var out := tesseract(config);
      r.text == Strip(out.text) && r.words == Words(out.boxes) && r.language == options.language.GetOr("eng")
      && r.confidence == Mean(Confidences(r.words))
    // one line per line number, ascending, each being the line of that number's words
    ensures |r.lines| == |LinesOf(tesseract(config).boxes)|
    ensures exists keys :: ListedBy(LinesOf(tesseract(config).boxes), keys, r.lines)
  {
    config := ConfigString(options);
    var out := tesseract(config);
    var words, lines, order := GroupWords(out.boxes);
    LineOrderKeys(out.boxes);
    var keys, listed := EmitLines(lines, order);
    DistinctKeysCount(lines, keys);
    assert ListedBy(lines, keys, listed);
    r := OcrResult(Strip(out.text), Mean(Confidences(words)), words, listed, options.language.GetOr("eng"));
  }

  /** A strictly increasing listing of a map's keys lists each key once, so it is as long as the map. */
  lemma DistinctKeysCount<V>(m: map<int, V>, keys: seq<int>)
    requires forall i, j :: 0 <= i < j < |keys| ==> keys[i] < keys[j]
    requires forall k :: k in keys <==> k in m
    ensures |keys| == |m|
  {
    var s := set k | k in keys;
    assert forall k :: k in s <==> k in m;
    assert s == m.Keys;
    DistinctCard(keys);
  }

  lemma {:induction false} DistinctCard(keys: seq<int>)
    requires forall i, j :: 0 <= i < j < |keys| ==> keys[i] < keys[j]
    ensures |set k | k in keys| == |keys|
    decreases |keys|
  {
    if |keys| > 0 {
      var init := keys[..|keys| - 1];
      DistinctCard(init);
      var last := keys[|keys| - 1];
      assert (set k | k in keys) == (set k | k in init) + {last};
      assert last !in (set k | k in init);
    }
  }

  /** With Tesseract's confidences at most 100, every word's and the overall confidence lie in [0, 1]. */
  lemma ConfidenceInRange(bs: seq<TessBox>)
    requires forall i :: 0 <= i < |bs| ==> bs[i].conf <= 100.0
    ensures 0.0 <= Mean(Confidences(Words(bs))) <= 1.0
    ensures forall k :: 0 <= k < |Words(bs)| ==> 0.0 < Words(bs)[k].confidence <= 1.0
  {
    WordsFromBoxes(bs);
    var ws := Words(bs);
    MeanBounds(Confidences(ws), 0.0, 1.0);
  }

  /** `w` is the word of one of the confident boxes. */
  ghost predicate FromBox(bs: seq<TessBox>, w: OcrWord) {
    exists i :: 0 <= i < |bs| && Confident(bs[i]) && w == WordOf(bs[i])
  }

  /** Every word is the word of some confident box. */
  lemma {:induction false} WordsFromBoxes(bs: seq<TessBox>)
    ensures forall k :: 0 <= k < |Words(bs)| ==> FromBox(bs, Words(bs)[k])
    decreases |bs|
  {
    if |bs| > 0 {
      var init := bs[..|bs| - 1];
      WordsFromBoxes(init);
      forall k | 0 <= k < |Words(bs)|
        ensures FromBox(bs, Words(bs)[k])
      {
        if k < |Words(init)| {
          assert Words(bs)[k] == Words(init)[k];
          var i :| 0 <= i < |init| && Confident(init[i]) && Words(init)[k] == WordOf(init[i]);
          assert bs[i] == init[i];
        } else {
          assert Confident(bs[|bs| - 1]) && Words(bs)[k] == WordOf(bs[|bs| - 1]);
        }
      }
    }
  }

  // ---------------------------------------------------------------------------
  // Image data and batches

  /**
   * A value starting with `data:image` is replaced by `split(',')[1]`: the
   * text after the first comma, up to the next comma. None when there is no
   * comma (the indexing raises).
   */
  function StripDataUrl(s: string): (r: Option<string>)
    ensures !IsPrefix("data:image", s) ==> r == Some(s)
    ensures IsPrefix("data:image", s) && ',' !in s ==> r.None?
    ensures IsPrefix("data:image", s) && ',' in s ==>
              var k := Find(s, ',', 0).value;
              r.Some? && k + 1 + |r.value| <= |s| && r.value == s[k + 1..k + 1 + |r.value|] && ',' !in r.value
              && (k + 1 + |r.value| == |s| || s[k + 1 + |r.value|] == ',')
  {
    if !IsPrefix("data:image", s) then Some(s)
    else
      match Find(s, ',', 0)
      case None => None
      case Some(k) =>
        var end := Find(s, ',', k + 1).GetOr(|s|);
        Some(s[k + 1..end])
  }

  /** A data URL with a single comma yields everything after it. */
  lemma DataUrlPayload(header: string, payload: string)
    requires ',' !in header && ',' !in payload
    ensures StripDataUrl("data:image" + header + "," + payload) == Some(payload)
  {
    var s := "data:image" + header + ",";
    var u := s + payload;
    assert IsPrefix("data:image", u) by { assert u[..10] == "data:image"; }
    var k := |s| - 1;
    assert u[k] == ',';
    assert forall m :: 0 <= m < k ==> u[m] != ',' by {
      forall m | 0 <= m < k ensures u[m] != ',' {
        if m >= 10 { assert u[m] == header[m - 10]; }
      }
    }
    assert Find(u, ',', 0) == Some(k);
    assert forall m :: k + 1 <= m < |u| ==> u[m] != ',' by {
      forall m | k + 1 <= m < |u| ensures u[m] != ',' {
        assert u[m] == payload[m - k - 1];
      }
    }
    assert Find(u, ',', k + 1) == None;
    assert u[k + 1..|u|] == payload;
    assert StripDataUrl(u) == Some(u[k + 1..|u|]);
  }

  /** One element of the `images` list: its `id` and `image` keys, None when absent. */
  datatype ImageEntry = ImageEntry(id: Option<string>, image: Option<string>)

  datatype ImageError = MissingComma | NoImageData | DecodeFailed | EmptyImage | InvalidImage | OcrFailed

  datatype BatchEntry = BatchEntry(id: string, outcome: Result<OcrResult, ImageError>)

  /**
   * The services an image goes through: base64 decoding (None when it
   * raises), image verification, and OCR of the image bytes (None when it
   * raises).
   */
  datatype Services = Services(decode: string -> Option<seq<byte>>, isImage: seq<byte> -> bool,
                               recognise: seq<byte> -> Option<OcrResult>)

  /** Decoding the payload, verifying the image and recognising it: the first failing step, or the result. */
  function Decoded(data: string, sv: Services): (r: Result<OcrResult, ImageError>)
    ensures r.Ok? <==> sv.decode(data).Some? && sv.decode(data).value != [] && sv.isImage(sv.decode(data).value)
                       && sv.recognise(sv.decode(data).value).Some?
    ensures r.Ok? ==> r.value == sv.recognise(sv.decode(data).value).value
    ensures r.Err? ==> r.error in {DecodeFailed, EmptyImage, InvalidImage, OcrFailed}
  {
    match sv.decode(data)
    case None => Err(DecodeFailed)
    case Some(bytes) =>
      if bytes == [] then Err(EmptyImage)
      else if !sv.isImage(bytes) then Err(InvalidImage)
      else match sv.recognise(bytes)
        case None => Err(OcrFailed)
        case Some(result) => Ok(result)
  }

  /** What happens to one image of a batch: a blank payload is refused before it is decoded. */
  function ProcessImage(image: string, sv: Services): (r: Result<OcrResult, ImageError>)
    ensures StripDataUrl(image).None? ==> r == Err(MissingComma)
    ensures StripDataUrl(image) == Some([]) ==> r == Err(NoImageData)
    ensures r.Ok? <==> StripDataUrl(image).Some? && StripDataUrl(image).value != [] && Decoded(StripDataUrl(image).value, sv).Ok?
    ensures r.Ok? ==> r == Decoded(StripDataUrl(image).value, sv)
  {
    match StripDataUrl(image)
    case None => Err(MissingComma)
    case Some(data) => if data == [] then Err(NoImageData) else Decoded(data, sv)
  }

  /** The entry of the `index`-th image: its own id, or its position when it has none. */
  function EntryFor(img: ImageEntry, index: nat, sv: Services): (e: BatchEntry)
    ensures e.id == img.id.GetOr(NatToString(index))
    ensures e.outcome == ProcessImage(img.image.GetOr(""), sv)
  {
    BatchEntry(img.id.GetOr(NatToString(index)), ProcessImage(img.image.GetOr(""), sv))
  }

  /** The loop of `/extract/batch`: one entry per image, in order, failures included. */
  method ExtractBatch(images: seq<ImageEntry>, sv: Services) returns (results: seq<BatchEntry>)
    ensures |results| == |images|
    ensures forall i :: 0 <= i < |images| ==> results[i] == EntryFor(images[i], i, sv)
  {
    results := [];
    for i := 0 to |images|
      invariant |results| == i
      invariant forall j :: 0 <= j < i ==> results[j] == EntryFor(images[j], j, sv)
    {
      var img := images[i];
      var id := img.id.GetOr(NatToString(|results|));
      var outcome := ProcessImage(img.image.GetOr(""), sv);
      results := results + [BatchEntry(id, outcome)];
    }
  }

  /** An image without data in a batch becomes an error entry carrying its position as id. */
  lemma MissingImageIsError(images: seq<ImageEntry>, i: nat, sv: Services)
    requires i < |images| && images[i] == ImageEntry(None, None)
    ensures EntryFor(images[i], i, sv) == BatchEntry(NatToString(i), Err(NoImageData))
  {
    assert !IsPrefix("data:image", "");
  }

  /**
   * `/extract`: `image` is None when the body or its `image` key is missing.
   * The status code and, on 200, the OCR result.
   */
  function ExtractRoute(image: Option<string>, sv: Services): (r: (nat, Option<OcrResult>))
    ensures image.None? ==> r == (400, None)
    // a value with a data prefix but no comma makes the handler raise
    ensures image.Some? && StripDataUrl(image.value).None? ==> r == (500, None)
    ensures image.Some? && StripDataUrl(image.value).Some? ==> var d := Decoded(StripDataUrl(image.value).value, sv);
      (d.Ok? ==> r == (200, Some(d.value)))
      // a failed recognition is the server's error, a bad payload the client's
      && (d.Err? ==> r == (if d.error == OcrFailed then 500 else 400, None))
  {
    match image
    case None => (400, None)
    case Some(img) =>
      match StripDataUrl(img)
      case None => (500, None)
      case Some(data) =>
        match Decoded(data, sv)
        case Ok(result) => (200, Some(result))
        case Err(e) => (if e == OcrFailed then 500 else 400, None)
  }

  /**
   * The single-image route and a batch agree on every image with a
   * non-blank payload; only a blank payload differs, which a batch refuses
   * before decoding and the route hands to the decoder.
   */
  lemma ExtractAgreesWithBatch(image: string, sv: Services)
    requires StripDataUrl(image).Some? && StripDataUrl(image).value != []
    ensures (ExtractRoute(Some(image), sv).0 == 200) <==> ProcessImage(image, sv).Ok?
    ensures ProcessImage(image, sv).Ok? ==> ExtractRoute(Some(image), sv).1 == Some(ProcessImage(image, sv).value)
  {
  }
}
