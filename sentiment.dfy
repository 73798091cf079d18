/** Post-processing of a Korean emotion classifier's output: the grouping of its
    eleven fine-grained labels into four coarse groups, the length cap on the
    classifier's input, the two-threshold confidence tiers, the annotation text
    shown for a message and the record that packages all of it.

    The classifier itself is not modelled: it is a function from text to an
    optional (label, score) pair, `None` standing for a call that raised. */
module Sentiment {
  import opened Options

  /** The classifier's top answer for one text. */
  datatype Classification = Classification(emotion: string, score: real)

  /** One call of the classifier; `None` is a call that raised. */
  type Classifier = string -> Option<Classification>

  // ---------------------------------------------------------------------------
  // The label table

  const PositiveLabels: seq<string> := ["기쁨(행복한)", "고마운", "설레는(기대하는)", "사랑하는", "즐거운(신나는)"]
  const NeutralLabels: seq<string> := ["일상적인", "생각이 많은"]
  const NegativeLabels: seq<string> := ["슬픔(우울한)", "힘듦(지침)", "짜증남", "걱정스러운(불안한)"]

  /** The eleven fine-grained labels the table knows. */
  function KnownLabels(): seq<string> {
    PositiveLabels + NeutralLabels + NegativeLabels
  }

  /** The coarse groups, with the text the source shows for each. */
  datatype Group = Positive | Neutral | Negative | Unknown {
    function Name(): string {
      match this
      case Positive => "긍정"
      case Neutral => "중립"
      case Negative => "부정"
      case Unknown => "알 수 없음"
    }
  }

  /** The coarse group of a fine-grained label: the first list that holds it,
      `Unknown` when none does. Because the lists are disjoint, each group is
      reached exactly from its own list. */
  function Simplify(emotion: string): (g: Group)
    ensures g == Positive <==> emotion in PositiveLabels
    ensures g == Neutral <==> emotion in NeutralLabels
    ensures g == Negative <==> emotion in NegativeLabels
    ensures g == Unknown <==> emotion !in KnownLabels()
  {
    if emotion in PositiveLabels then Positive
    else if emotion in NeutralLabels then Neutral
    else if emotion in NegativeLabels then Negative
    else Unknown
  }

  /** The table has eleven labels, none listed twice, so no label belongs to two groups. */
  lemma LabelTable()
    ensures |KnownLabels()| == 11
    ensures forall i, j :: 0 <= i < j < |KnownLabels()| ==> KnownLabels()[i] != KnownLabels()[j]
  {
  }

  /** A classification with its label's coarse group attached. */
  datatype Simple = Simple(originalLabel: string, group: Group, score: real)

  /** Attaches the coarse group to a classification; no classification gives none.
      The original label and the score pass through unchanged. */
  function ConvertToSimple(r: Option<Classification>): (c: Option<Simple>)
    ensures c.Some? <==> r.Some?
    ensures r.Some? ==> c.value.originalLabel == r.value.emotion && c.value.score == r.value.score
    ensures r.Some? ==> c.value.group == Simplify(r.value.emotion)
  {
    match r
    case None => None
    case Some(Classification(emotion, score)) => Some(Simple(emotion, Simplify(emotion), score))
  }

  // ---------------------------------------------------------------------------
  // Input length cap

  /** The longest text, in characters, handed to the classifier. */
  const MaxInputLength: nat := 400

  function Min(a: nat, b: nat): nat {
    if a <= b then a else b
  }

  /** The text the classifier sees: the input itself when it is short enough,
      otherwise its first `MaxInputLength` characters. */
  function Truncate(text: string): (t: string)
    ensures |t| == Min(|text|, MaxInputLength)
    ensures t == text[..|t|]
  {
    if |text| > MaxInputLength then text[..MaxInputLength] else text
  }

  /** Capping twice is capping once. */
  lemma TruncateIdempotent(text: string)
    ensures Truncate(Truncate(text)) == Truncate(text)
  {
  }

  // ---------------------------------------------------------------------------
  // Confidence tiers

  const DefaultStrictThreshold: real := 0.7
  const DefaultNeutralThreshold: real := 0.55

  /** The confidence tiers, with the text the source shows for each. */
  datatype Tier = High | Medium | Low {
    function Name(): string {
      match this
      case High => "높음"
      case Medium => "보통"
      case Low => "낮음"
    }

    /** Order of the tiers, lowest first. */
    function Rank(): nat {
      match this
      case Low => 0
      case Medium => 1
      case High => 2
    }
  }

  /** The tier of a score: at or above `strict` is high, otherwise at or above
      `neutral` is medium, otherwise low. */
  function TierOf(score: real, strict: real, neutral: real): (t: Tier)
    ensures t == High <==> score >= strict
    ensures t == Medium <==> neutral <= score < strict
    ensures t == Low <==> score < strict && score < neutral
  {
    if score >= strict then High
    else if score >= neutral then Medium
    else Low
  }

  /** A higher score never lands in a lower tier. */
  lemma TierMonotonic(s1: real, s2: real, strict: real, neutral: real)
    requires s1 <= s2
    ensures TierOf(s1, strict, neutral).Rank() <= TierOf(s2, strict, neutral).Rank()
  {
  }

  /** With the default thresholds: 0.8 is high, 0.6 medium, 0.4 low. */
  lemma DefaultTierExamples()
    ensures TierOf(0.8, DefaultStrictThreshold, DefaultNeutralThreshold) == High
    ensures TierOf(0.6, DefaultStrictThreshold, DefaultNeutralThreshold) == Medium
    ensures TierOf(0.4, DefaultStrictThreshold, DefaultNeutralThreshold) == Low
  {
  }

  // ---------------------------------------------------------------------------
  // The percentage text, `score * 100` with one decimal

  /** Rounds to the nearest integer, ties to the even one. */
  function RoundHalfEven(x: real): (n: int)
    ensures -0.5 <= x - n as real <= 0.5
    ensures (x - n as real == 0.5 || n as real - x == 0.5) ==> n % 2 == 0
  {
    var f := x.Floor;
    var frac := x - f as real;
    if frac < 0.5 then f
    else if frac > 0.5 then f + 1
    else if f % 2 == 0 then f
    else f + 1
  }

  function Digit(d: nat): (c: char)
    requires d < 10
    ensures '0' <= c <= '9' && (c as int) - ('0' as int) == d
  {
    ('0' as int + d) as char
  }

  function DigitValue(c: char): int {
    (c as int) - ('0' as int)
  }

  /** Decimal digits of a natural number, most significant first, no leading zeros. */
  function NatText(n: nat): (s: string)
    ensures |s| > 0 && forall i :: 0 <= i < |s| ==> '0' <= s[i] <= '9'
    decreases n
  {
    if n < 10 then [Digit(n)] else NatText(n / 10) + [Digit(n % 10)]
  }

  /** The number a string of decimal digits denotes. */
  function DigitsValue(s: string): int
    decreases |s|
  {
    if s == [] then 0 else 10 * DigitsValue(s[..|s| - 1]) + DigitValue(s[|s| - 1])
  }

  /** Reading the digits back gives the number. */
  lemma {:induction false} NatTextRoundTrip(n: nat)
    ensures DigitsValue(NatText(n)) == n
    decreases n
  {
    var s := NatText(n);
    if n >= 10 {
      NatTextRoundTrip(n / 10);
      assert s[..|s| - 1] == NatText(n / 10);
    }
  }

  /** `score * 100` written with one decimal: a sign when the score is
      negative, the whole part, a point and the tenths digit. */
  function PercentText(score: real): (s: string)
    ensures |s| >= 3 && s[|s| - 2] == '.' && '0' <= s[|s| - 1] <= '9'
  {
    var tenths := RoundHalfEven(score * 1000.0);
    var mag: nat := if tenths < 0 then -tenths else tenths;
    (if score < 0.0 then "-" else "") + NatText(mag / 10) + "." + [Digit(mag % 10)]
  }

  /** The percentage text denotes `score * 100` rounded to one decimal: it
      starts with a minus sign exactly for a negative score, and its digits,
      with the point removed, read as the rounded magnitude of `score * 1000`. */
  lemma PercentTextValue(score: real)
    ensures var s := PercentText(score);
      var tenths := RoundHalfEven(score * 1000.0);
      var body := if score < 0.0 then s[1..] else s;
      (s[0] == '-' <==> score < 0.0) &&
      |body| >= 3 &&
      DigitsValue(body[..|body| - 2]) * 10 + DigitValue(body[|body| - 1]) == (if tenths < 0 then -tenths else tenths)
  {
    var s := PercentText(score);
    var tenths := RoundHalfEven(score * 1000.0);
    var mag: nat := if tenths < 0 then -tenths else tenths;
    var body := NatText(mag / 10) + "." + [Digit(mag % 10)];
    assert s == (if score < 0.0 then "-" else "") + body;
    assert (if score < 0.0 then s[1..] else s) == body;
    assert body[..|body| - 2] == NatText(mag / 10);
    NatTextRoundTrip(mag / 10);
  }

  lemma PercentTextExample()
    ensures PercentText(0.4) == "40.0"
  {
    assert RoundHalfEven(0.4 * 1000.0) == 400;
    assert NatText(4) == "4";
    assert NatText(40) == "40";
  }

  // ---------------------------------------------------------------------------
  // The annotation text

  /** What the annotation starts with when the score is below the neutral threshold. */
  const UncertainHead: string := "불확실"

  /** Everything after the head: the original label, the tier and the percentage. */
  function Details(originalLabel: string, tier: Tier, score: real): string {
    " [ 원본: " + originalLabel + ", 신뢰도: " + tier.Name() + ", " + PercentText(score) + "% ]"
  }

  /** The annotation for a classification: empty when there is none; otherwise
      the coarse group's name, or the uncertain marker in the low tier, followed
      by the original label, the tier and the percentage. */
  function SentimentDisplay(r: Option<Classification>, strict: real, neutral: real): (s: string)
    ensures r.None? <==> s == ""
    ensures r.Some? ==>
      var tier := TierOf(r.value.score, strict, neutral);
      var head := if tier == Low then UncertainHead else Simplify(r.value.emotion).Name();
      s == head + Details(r.value.emotion, tier, r.value.score)
  {
    match ConvertToSimple(r)
    case None => ""
    case Some(c) =>
      var tier := TierOf(c.score, strict, neutral);
      if tier == Low then UncertainHead + Details(c.originalLabel, tier, c.score)
      else c.group.Name() + Details(c.originalLabel, tier, c.score)
  }

  /** In the high and medium tiers the annotation starts with the coarse group's
      name; in the low tier it starts with the uncertain marker, which begins
      differently from every group name. */
  lemma DisplayHead(r: Classification, strict: real, neutral: real)
    ensures var s := SentimentDisplay(Some(r), strict, neutral);
      var g := Simplify(r.emotion).Name();
      if r.score >= neutral || r.score >= strict then
        |g| <= |s| && s[..|g|] == g
      else
        |UncertainHead| <= |s| && s[..|UncertainHead|] == UncertainHead && s[0] != g[0]
  {
  }

  // ---------------------------------------------------------------------------
  // The packaged result

  /** What message processing returns. */
  datatype SentimentRecord = SentimentRecord(sentiment: Option<Classification>, display: Option<string>, hasSentiment: bool)

  /** Packages an analysis result: the flag says whether there was one, and
      without one both the result and its annotation are absent; with one the
      annotation is that of the default thresholds, never empty. */
  function Package(r: Option<Classification>): (rec: SentimentRecord)
    ensures rec.hasSentiment <==> r.Some?
    ensures rec.sentiment == r
    ensures !rec.hasSentiment ==> rec.display.None?
    ensures rec.hasSentiment ==>
      rec.display == Some(SentimentDisplay(r, DefaultStrictThreshold, DefaultNeutralThreshold)) && rec.display.value != ""
  {
    if r.Some? then
      SentimentRecord(r, Some(SentimentDisplay(r, DefaultStrictThreshold, DefaultNeutralThreshold)), true)
    else
      SentimentRecord(None, None, false)
  }

  // ---------------------------------------------------------------------------
  // The analyser object

  class SentimentAnalysis {
    /** The loaded classifier, or `None` when loading failed. */
    var pipeline: Option<Classifier>
    /** Every text handed to the classifier so far, oldest first. */
    ghost var sent: seq<string>

    /** `loaded` is the outcome of loading the model: `None` when it failed. */
    constructor (loaded: Option<Classifier>)
      ensures pipeline == loaded && sent == []
    {
      pipeline := loaded;
      sent := [];
    }

    /** Without a classifier there is no result and no call; with one, the
        classifier is called once, on the capped text, and its answer returned. */
    method AnalyzeSentiment(text: string) returns (r: Option<Classification>)
      modifies this`sent
      ensures pipeline.None? ==> r.None? && sent == old(sent)
      ensures pipeline.Some? ==> r == pipeline.value(Truncate(text)) && sent == old(sent) + [Truncate(text)]
    {
      if pipeline.None? {
        return None;
      }
      var input := text;
      if |input| > MaxInputLength {
        input := input[..MaxInputLength];
      }
      sent := sent + [input];
      r := pipeline.value(input);
    }

    /** Analyses a message and packages the outcome. */
    method ProcessMessageSentiment(content: string) returns (rec: SentimentRecord)
      modifies this`sent
      ensures rec == Package(if pipeline.None? then None else pipeline.value(Truncate(content)))
      ensures sent == old(sent) + (if pipeline.None? then [] else [Truncate(content)])
    {
      var r := AnalyzeSentiment(content);
      if r.Some? {
        var display := SentimentDisplay(r, DefaultStrictThreshold, DefaultNeutralThreshold);
        rec := SentimentRecord(r, Some(display), true);
      } else {
        rec := SentimentRecord(None, None, false);
      }
    }
  }
}
