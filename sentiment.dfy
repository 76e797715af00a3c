/**
 * Classification of one review by its compound polarity score.
 *
 * The score comes from a lexicon-based analyser that is not part of this
 * model: it is an input here, a real number. Classification cuts the score
 * at two fixed thresholds and hands the score back as the "confidence".
 */
module Sentiment {

  datatype Label = Positive | Neutral | Negative

  datatype Option<T> = None | Some(value: T)

  /** Scores at or above this are positive. */
  const PositiveThreshold: real := 0.05
  /** Scores at or below this are negative. */
  const NegativeThreshold: real := -0.05

  /** The label as the results table shows it. */
  function LabelName(l: Label): string {
    match l
    case Positive => "Positive"
    case Neutral => "Neutral"
    case Negative => "Negative"
  }

  /** The label a name in the results table stands for, if any. */
  function LabelOf(name: string): (l: Option<Label>)
    ensures l.Some? ==> LabelName(l.value) == name
    ensures l.None? <==> name != "Positive" && name != "Neutral" && name != "Negative"
  {
    if name == "Positive" then Some(Positive)
    else if name == "Neutral" then Some(Neutral)
    else if name == "Negative" then Some(Negative)
    else None
  }

  /** Every label is shown under its own name, and no two labels share one. */
  lemma LabelNameRoundTrip(l: Label)
    ensures LabelOf(LabelName(l)) == Some(l)
  {
  }

  /** The pair the analysis of one review produces: a label and the score itself. */
  datatype Analysis = Analysis(sentiment: Label, confidence: real)

  /**
   * The analysis of a review whose compound score is `compound`. The two
   * thresholds split the real line into three parts; the score is returned
   * unchanged as the confidence.
   */
  function AnalyzeSentiment(compound: real): (a: Analysis)
    ensures a.confidence == compound
    ensures a.sentiment == Positive <==> compound >= PositiveThreshold
    ensures a.sentiment == Negative <==> compound <= NegativeThreshold
    ensures a.sentiment == Neutral <==> NegativeThreshold < compound < PositiveThreshold
  {
    if compound >= PositiveThreshold then Analysis(Positive, compound)
    else if compound <= NegativeThreshold then Analysis(Negative, compound)
    else Analysis(Neutral, compound)
  }

  /** The order of the labels on the real line, most negative first. */
  function Polarity(l: Label): (rank: int)
    ensures -1 <= rank <= 1
  {
    match l
    case Negative => -1
    case Neutral => 0
    case Positive => 1
  }

  /**
   * Classification respects the order of scores: a higher score never gets a
   * more negative label.
   */
  lemma AnalyzeMonotone(c1: real, c2: real)
    requires c1 <= c2
    ensures Polarity(AnalyzeSentiment(c1).sentiment) <= Polarity(AnalyzeSentiment(c2).sentiment)
  {
  }

  /**
   * The thresholds themselves belong to the outer classes, and a score of
   * zero is neutral.
   */
  lemma ThresholdBoundaries()
    ensures AnalyzeSentiment(0.05).sentiment == Positive
    ensures AnalyzeSentiment(-0.05).sentiment == Negative
    ensures AnalyzeSentiment(0.0).sentiment == Neutral
    ensures AnalyzeSentiment(0.0499).sentiment == Neutral
    ensures AnalyzeSentiment(-0.0499).sentiment == Neutral
  {
  }

  /** The order in which the distribution chart lists the labels. */
  const SentimentOrder: seq<Label> := [Positive, Neutral, Negative]

  /** The position of a label in the chart's order. */
  function DisplayIndex(l: Label): nat {
    match l
    case Positive => 0
    case Neutral => 1
    case Negative => 2
  }

  /** The chart's order lists every label, each at its display index. */
  lemma DisplayIndexInOrder(l: Label)
    ensures DisplayIndex(l) < |SentimentOrder| && SentimentOrder[DisplayIndex(l)] == l
    ensures |SentimentOrder| == 3
  {
  }

  /**
   * The chart lists every label exactly once, from the most positive label
   * down: a label is listed before another exactly when it is more positive.
   */
  lemma DisplayOrderByPolarity(l1: Label, l2: Label)
    ensures DisplayIndex(l1) < DisplayIndex(l2) <==> Polarity(l1) > Polarity(l2)
    ensures DisplayIndex(l1) == DisplayIndex(l2) <==> l1 == l2
  {
  }
}
