/** The values that flow between the classifier, the page state and the
    formatters: a classification result and a remembered history entry. */
module Types {

  datatype Option<+T> = None | Some(value: T)

  /** The three class scores the classifier returns. */
  datatype Probabilities = Probabilities(positive: real, neutral: real, negative: real)

  /** A classification result. The label arrives as free text and is only
      interpreted by the formatters, through `Classify`. */
  datatype SentimentResult = SentimentResult(sentiment: string, probabilities: Probabilities)

  /** One remembered analysis: the text as submitted and its result. */
  datatype Entry = Entry(text: string, result: SentimentResult)

  /** The label as the formatters' switch statements see it. */
  datatype Label = Positive | Neutral | Negative | Other(raw: string)

  /** An `Other` label never carries one of the three recognised spellings. */
  predicate WellFormed(l: Label) {
    l.Other? ==> l.raw != "positive" && l.raw != "neutral" && l.raw != "negative"
  }

  /** The wire spelling of a label. */
  function Spelling(l: Label): string {
    match l
    case Positive => "positive"
    case Neutral => "neutral"
    case Negative => "negative"
    case Other(raw) => raw
  }

  /** The string comparison the `switch (result.sentiment)` statements make. */
  function Classify(s: string): (l: Label)
    ensures WellFormed(l)
    ensures Spelling(l) == s
  {
    if s == "positive" then Positive
    else if s == "neutral" then Neutral
    else if s == "negative" then Negative
    else Other(s)
  }

  /** Classification loses nothing: every well-formed label is recovered
      from its spelling. */
  lemma ClassifySpelling(l: Label)
    requires WellFormed(l)
    ensures Classify(Spelling(l)) == l
  {
  }

  predicate Known(r: SentimentResult) {
    !Classify(r.sentiment).Other?
  }
}
