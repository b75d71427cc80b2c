/** The presentation formatters: total maps from an optional result to the
    emoji, the Vietnamese label, the colour and gradient classes and the
    confidence tier shown in the results panel. */
module SentimentHelpers {
  import opened Types

  const DefaultGradient: string := "from-blue-500 to-indigo-600"

  const ConfidenceHigh: string := "Độ tin cậy: Cao"
  const ConfidenceMedium: string := "Độ tin cậy: Trung bình"
  const ConfidenceLow: string := "Độ tin cậy: Thấp"

  /** The recognised label of a present result, if it has one. */
  predicate HasKnownLabel(r: Option<SentimentResult>) {
    r.Some? && Known(r.value)
  }

  function SentimentEmoji(r: Option<SentimentResult>): (e: string)
    ensures e == "" <==> !HasKnownLabel(r)
  {
    match r
    case None => ""
    case Some(x) =>
      match Classify(x.sentiment)
      case Positive => "😊"
      case Neutral => "😐"
      case Negative => "😞"
      case Other(_) => ""
  }

  function SentimentText(r: Option<SentimentResult>): (t: string)
    ensures t == "" <==> !HasKnownLabel(r)
  {
    match r
    case None => ""
    case Some(x) =>
      match Classify(x.sentiment)
      case Positive => "Tích cực"
      case Neutral => "Trung tính"
      case Negative => "Tiêu cực"
      case Other(_) => ""
  }

  function SentimentColor(r: Option<SentimentResult>): (c: string)
    ensures c == "" <==> !HasKnownLabel(r)
  {
    match r
    case None => ""
    case Some(x) =>
      match Classify(x.sentiment)
      case Positive => "text-emerald-500"
      case Neutral => "text-gray-500"
      case Negative => "text-red-500"
      case Other(_) => ""
  }

  /** Unlike the other three, the gradient falls back to a blue/indigo
      default rather than the empty string. */
  function SentimentGradient(r: Option<SentimentResult>): (g: string)
    ensures g == DefaultGradient <==> !HasKnownLabel(r)
    ensures g != ""
  {
    match r
    case None => DefaultGradient
    case Some(x) =>
      match Classify(x.sentiment)
      case Positive => "from-emerald-400 to-emerald-600"
      case Neutral => "from-gray-400 to-gray-600"
      case Negative => "from-red-400 to-red-600"
      case Other(_) => DefaultGradient
  }

  /** `Math.max` of three scores. */
  function Max3(a: real, b: real, c: real): (m: real)
    ensures m == a || m == b || m == c
    ensures a <= m && b <= m && c <= m
  {
    if a >= b && a >= c then a else if b >= c then b else c
  }

  function MaxProbability(p: Probabilities): real {
    Max3(p.positive, p.neutral, p.negative)
  }

  /** The tier is decided by the largest score alone, with strict
      comparisons: exactly 0.8 is medium and exactly 0.5 is low. */
  function ConfidenceLevel(r: Option<SentimentResult>): (c: string)
    ensures c == "" <==> r.None?
    ensures r.Some? ==>
      var m := MaxProbability(r.value.probabilities);
      (c == ConfidenceHigh <==> m > 0.8)
      && (c == ConfidenceMedium <==> 0.5 < m <= 0.8)
      && (c == ConfidenceLow <==> m <= 0.5)
  {
    match r
    case None => ""
    case Some(x) =>
      var m := MaxProbability(x.probabilities);
      if m > 0.8 then ConfidenceHigh
      else if m > 0.5 then ConfidenceMedium
      else ConfidenceLow
  }

  /** With no result every formatter gives its default. */
  lemma NullResultDefaults()
    ensures SentimentEmoji(None) == "" && SentimentText(None) == ""
    ensures SentimentColor(None) == "" && ConfidenceLevel(None) == ""
    ensures SentimentGradient(None) == DefaultGradient
  {
  }

  /** The three recognised labels are told apart by every formatter. */
  lemma FormattersSeparateLabels(x: SentimentResult, y: SentimentResult)
    requires Known(x) && Known(y)
    ensures Classify(x.sentiment) == Classify(y.sentiment)
      <==> SentimentEmoji(Some(x)) == SentimentEmoji(Some(y))
    ensures Classify(x.sentiment) == Classify(y.sentiment)
      <==> SentimentText(Some(x)) == SentimentText(Some(y))
    ensures Classify(x.sentiment) == Classify(y.sentiment)
      <==> SentimentColor(Some(x)) == SentimentColor(Some(y))
    ensures Classify(x.sentiment) == Classify(y.sentiment)
      <==> SentimentGradient(Some(x)) == SentimentGradient(Some(y))
  {
  }

  /** A label outside the three looks like no result at all. */
  lemma UnknownLabelLooksAbsent(x: SentimentResult)
    requires !Known(x)
    ensures SentimentEmoji(Some(x)) == SentimentEmoji(None)
    ensures SentimentText(Some(x)) == SentimentText(None)
    ensures SentimentColor(Some(x)) == SentimentColor(None)
    ensures SentimentGradient(Some(x)) == SentimentGradient(None)
  {
  }

  /** The largest of three scores does not depend on their order. */
  lemma MaxIgnoresOrder(p: Probabilities, q: Probabilities)
    requires multiset{p.positive, p.neutral, p.negative}
          == multiset{q.positive, q.neutral, q.negative}
    ensures MaxProbability(p) == MaxProbability(q)
  {
  }

  /** The tier is the same for any two results whose scores are a
      permutation of each other, whatever their labels. */
  lemma ConfidenceIgnoresOrderAndLabel(x: SentimentResult, y: SentimentResult)
    requires multiset{x.probabilities.positive, x.probabilities.neutral, x.probabilities.negative}
          == multiset{y.probabilities.positive, y.probabilities.neutral, y.probabilities.negative}
    ensures ConfidenceLevel(Some(x)) == ConfidenceLevel(Some(y))
  {
    MaxIgnoresOrder(x.probabilities, y.probabilities);
  }

  /** The boundary cases: 0.8 is medium, 0.81 high, 0.5 low, 0.51 medium. */
  lemma ConfidenceBoundaries(sentiment: string)
    ensures ConfidenceLevel(Some(SentimentResult(sentiment, Probabilities(0.8, 0.1, 0.1)))) == ConfidenceMedium
    ensures ConfidenceLevel(Some(SentimentResult(sentiment, Probabilities(0.81, 0.1, 0.09)))) == ConfidenceHigh
    ensures ConfidenceLevel(Some(SentimentResult(sentiment, Probabilities(0.5, 0.3, 0.2)))) == ConfidenceLow
    ensures ConfidenceLevel(Some(SentimentResult(sentiment, Probabilities(0.51, 0.3, 0.19)))) == ConfidenceMedium
  {
  }
}
