/**
 * The results table of a generated batch and the summaries drawn from it:
 * the four overview metrics and the bars of the sentiment distribution chart.
 */
module Aggregation {
  import opened Sentiment
  import ReviewGenerator
  import Vocabulary

  /** One row of the results table, columns in display order: review, sentiment, confidence. */
  datatype Row = Row(review: string, sentiment: Label, confidence: real)

  /**
   * The results table: each review of the batch, in order, next to its
   * analysis. `score` is the external analyser's compound score of a text.
   */
  function AnalyzeReviews(reviews: seq<string>, score: string -> real): (rows: seq<Row>)
    ensures |rows| == |reviews|
    ensures forall i :: 0 <= i < |rows| ==> rows[i].review == reviews[i]
    ensures forall i :: 0 <= i < |rows| ==>
      Analysis(rows[i].sentiment, rows[i].confidence) == AnalyzeSentiment(score(reviews[i]))
  {
    if reviews == [] then []
    else
      var a := AnalyzeSentiment(score(reviews[0]));
      [Row(reviews[0], a.sentiment, a.confidence)] + AnalyzeReviews(reviews[1..], score)
  }

  /** The number of rows whose sentiment column holds the label. */
  function Count(rows: seq<Row>, l: Label): (n: nat)
    ensures n <= |rows|
  {
    if rows == [] then 0
    else (if rows[0].sentiment == l then 1 else 0) + Count(rows[1..], l)
  }

  /** The sentiment column as a multiset of labels. */
  function LabelBag(rows: seq<Row>): (bag: multiset<Label>)
    ensures |bag| == |rows|
  {
    if rows == [] then multiset{} else multiset{rows[0].sentiment} + LabelBag(rows[1..])
  }

  /** The count of a label is its multiplicity in the sentiment column. */
  lemma {:induction false} CountIsMultiplicity(rows: seq<Row>, l: Label)
    ensures Count(rows, l) == LabelBag(rows)[l]
  {
    if rows != [] {
      CountIsMultiplicity(rows[1..], l);
    }
  }

  /** Every row carries exactly one of the three labels, so the three counts make up the table. */
  lemma {:induction false} CountsPartition(rows: seq<Row>)
    ensures Count(rows, Positive) + Count(rows, Neutral) + Count(rows, Negative) == |rows|
  {
    if rows != [] {
      CountsPartition(rows[1..]);
    }
  }

  /** The number of reviews whose score is at least `bound`. */
  function CountScoresAtLeast(reviews: seq<string>, score: string -> real, bound: real): (n: nat)
    ensures n <= |reviews|
  {
    if reviews == [] then 0
    else (if score(reviews[0]) >= bound then 1 else 0) + CountScoresAtLeast(reviews[1..], score, bound)
  }

  /** The number of reviews whose score is at most `bound`. */
  function CountScoresAtMost(reviews: seq<string>, score: string -> real, bound: real): (n: nat)
    ensures n <= |reviews|
  {
    if reviews == [] then 0
    else (if score(reviews[0]) <= bound then 1 else 0) + CountScoresAtMost(reviews[1..], score, bound)
  }

  /**
   * The positive and negative metrics count the reviews whose score reaches
   * the respective threshold, and the neutral metric counts the rest.
   */
  lemma {:induction false} CountsByScore(reviews: seq<string>, score: string -> real)
    ensures var rows := AnalyzeReviews(reviews, score);
      && Count(rows, Positive) == CountScoresAtLeast(reviews, score, PositiveThreshold)
      && Count(rows, Negative) == CountScoresAtMost(reviews, score, NegativeThreshold)
      && Count(rows, Neutral) == |reviews| - CountScoresAtLeast(reviews, score, PositiveThreshold)
                                          - CountScoresAtMost(reviews, score, NegativeThreshold)
  {
    var rows := AnalyzeReviews(reviews, score);
    CountsPartition(rows);
    if reviews != [] {
      CountsByScore(reviews[1..], score);
      assert rows[1..] == AnalyzeReviews(reviews[1..], score);
    }
  }

  /** The four metrics of the overview: total, positive, negative and neutral. */
  datatype Overview = Overview(total: nat, positive: nat, negative: nat, neutral: nat)

  /** The overview of a results table; the three label counts add up to the total. */
  function SentimentOverview(rows: seq<Row>): (o: Overview)
    ensures o.total == |rows|
    ensures o.positive + o.negative + o.neutral == o.total
    ensures o.positive == LabelBag(rows)[Positive] && o.negative == LabelBag(rows)[Negative]
    ensures o.neutral == LabelBag(rows)[Neutral]
  {
    CountsPartition(rows);
    CountIsMultiplicity(rows, Positive);
    CountIsMultiplicity(rows, Negative);
    CountIsMultiplicity(rows, Neutral);
    Overview(|rows|, Count(rows, Positive), Count(rows, Negative), Count(rows, Neutral))
  }

  /** One bar of the distribution chart: a label and how many rows carry it. */
  datatype Bar = Bar(sentiment: Label, count: nat)

  /** The labels of `order` that occur in the table, each with its count, in the order given. */
  function Bars(order: seq<Label>, rows: seq<Row>): (bars: seq<Bar>)
    ensures |bars| <= |order|
    ensures forall i :: 0 <= i < |bars| ==>
      bars[i].sentiment in order && bars[i].count == Count(rows, bars[i].sentiment) && bars[i].count > 0
  {
    if order == [] then []
    else
      var rest := Bars(order[1..], rows);
      var n := Count(rows, order[0]);
      if n > 0 then [Bar(order[0], n)] + rest else rest
  }

  /** Every label of `order` that occurs in the table gets a bar. */
  lemma {:induction false} BarsComplete(order: seq<Label>, rows: seq<Row>, l: Label)
    requires l in order && Count(rows, l) > 0
    ensures exists i :: 0 <= i < |Bars(order, rows)| && Bars(order, rows)[i].sentiment == l
  {
    var rest := Bars(order[1..], rows);
    var n := Count(rows, order[0]);
    if l == order[0] {
      assert Bars(order, rows)[0].sentiment == l;
    } else {
      BarsComplete(order[1..], rows, l);
      var i :| 0 <= i < |rest| && rest[i].sentiment == l;
      if n > 0 {
        assert Bars(order, rows)[i + 1] == rest[i];
      } else {
        assert Bars(order, rows)[i] == rest[i];
      }
    }
  }

  /** Labels listed strictly in the chart's order. */
  predicate InDisplayOrder(labels: seq<Label>) {
    forall i, j :: 0 <= i < j < |labels| ==> DisplayIndex(labels[i]) < DisplayIndex(labels[j])
  }

  /** Bars listed strictly in the chart's order of their labels. */
  predicate BarsInDisplayOrder(bars: seq<Bar>) {
    forall i, j :: 0 <= i < j < |bars| ==> DisplayIndex(bars[i].sentiment) < DisplayIndex(bars[j].sentiment)
  }

  /** A bound below every label of `order` is a bound below every bar. */
  lemma BarsAbove(order: seq<Label>, rows: seq<Row>, lo: int)
    requires forall k :: 0 <= k < |order| ==> DisplayIndex(order[k]) > lo
    ensures forall i :: 0 <= i < |Bars(order, rows)| ==> DisplayIndex(Bars(order, rows)[i].sentiment) > lo
  {
  }

  /** When `order` lists labels in the chart's order, so do the bars. */
  lemma {:induction false} BarsOrdered(order: seq<Label>, rows: seq<Row>)
    requires InDisplayOrder(order)
    ensures BarsInDisplayOrder(Bars(order, rows))
  {
    if order != [] {
      var rest := Bars(order[1..], rows);
      assert InDisplayOrder(order[1..]) by {
        forall i, j | 0 <= i < j < |order[1..]|
          ensures DisplayIndex(order[1..][i]) < DisplayIndex(order[1..][j])
        {
          assert order[1..][i] == order[i + 1] && order[1..][j] == order[j + 1];
        }
      }
      BarsOrdered(order[1..], rows);
      var n := Count(rows, order[0]);
      if n > 0 {
        assert forall k :: 0 <= k < |order[1..]| ==> DisplayIndex(order[1..][k]) > DisplayIndex(order[0]) by {
          forall k | 0 <= k < |order[1..]| ensures DisplayIndex(order[1..][k]) > DisplayIndex(order[0]) {
            assert order[1..][k] == order[k + 1];
          }
        }
        BarsAbove(order[1..], rows, DisplayIndex(order[0]));
        var bars := [Bar(order[0], n)] + rest;
        forall i, j | 0 <= i < j < |bars|
          ensures DisplayIndex(bars[i].sentiment) < DisplayIndex(bars[j].sentiment)
        {
          assert bars[j] == rest[j - 1];
          if i > 0 {
            assert bars[i] == rest[i - 1];
          }
        }
      }
    }
  }

  /**
   * The counts behind the distribution chart: one bar per label present in
   * the table, none for an absent label, listed positive, neutral, negative.
   */
  function SentimentCounts(rows: seq<Row>): (bars: seq<Bar>)
    ensures forall i :: 0 <= i < |bars| ==> bars[i].count == Count(rows, bars[i].sentiment) && bars[i].count > 0
    ensures forall l :: (exists i :: 0 <= i < |bars| && bars[i].sentiment == l) <==> Count(rows, l) > 0
    ensures BarsInDisplayOrder(bars)
  {
    var bars := Bars(SentimentOrder, rows);
    assert forall l :: l in SentimentOrder by {
      forall l ensures l in SentimentOrder { DisplayIndexInOrder(l); }
    }
    forall l | Count(rows, l) > 0
      ensures exists i :: 0 <= i < |bars| && bars[i].sentiment == l
    {
      BarsComplete(SentimentOrder, rows, l);
    }
    assert InDisplayOrder(SentimentOrder);
    BarsOrdered(SentimentOrder, rows);
    bars
  }

  /** The sum of the counts on a list of bars. */
  function BarTotal(bars: seq<Bar>): nat {
    if bars == [] then 0 else bars[0].count + BarTotal(bars[1..])
  }

  /** The sum of the counts of the labels of `order`, absent ones included. */
  function OrderTotal(order: seq<Label>, rows: seq<Row>): nat {
    if order == [] then 0 else Count(rows, order[0]) + OrderTotal(order[1..], rows)
  }

  /** Leaving out the labels that do not occur loses nothing from the sum. */
  lemma {:induction false} BarsKeepTotal(order: seq<Label>, rows: seq<Row>)
    ensures BarTotal(Bars(order, rows)) == OrderTotal(order, rows)
  {
    if order != [] {
      BarsKeepTotal(order[1..], rows);
      var rest := Bars(order[1..], rows);
      if Count(rows, order[0]) > 0 {
        assert ([Bar(order[0], Count(rows, order[0]))] + rest)[1..] == rest;
      }
    }
  }

  /** Summed over the display order, the counts make up the table. */
  lemma DisplayOrderTotal(rows: seq<Row>)
    ensures OrderTotal(SentimentOrder, rows) == |rows|
  {
    var o := SentimentOrder;
    assert o[1..] == [Neutral, Negative] && o[1..][1..] == [Negative] && o[1..][1..][1..] == [];
    assert OrderTotal(o[1..][1..], rows) == Count(rows, Negative) + OrderTotal([], rows);
    assert OrderTotal(o[1..], rows) == Count(rows, Neutral) + OrderTotal(o[1..][1..], rows);
    assert OrderTotal(o, rows) == Count(rows, Positive) + OrderTotal(o[1..], rows);
    CountsPartition(rows);
  }

  /** The bars of the chart add up to the number of rows. */
  lemma SentimentCountsTotal(rows: seq<Row>)
    ensures BarTotal(SentimentCounts(rows)) == |rows|
  {
    BarsKeepTotal(SentimentOrder, rows);
    DisplayOrderTotal(rows);
  }

  /**
   * The whole pipeline for one batch: the table has one row per requested
   * review, in generation order, and its overview adds up to the number of
   * reviews requested.
   */
  lemma BatchOverview(themeName: string, numReviews: nat, draws: seq<ReviewGenerator.Draw>, score: string -> real)
    requires |draws| == numReviews
    requires forall i :: 0 <= i < |draws| ==> ReviewGenerator.ValidDraw(Vocabulary.ThemeOf(themeName), draws[i])
    ensures var rows := AnalyzeReviews(ReviewGenerator.GenerateReviews(themeName, numReviews, draws), score);
      && |rows| == numReviews
      && (forall i :: 0 <= i < numReviews ==>
            rows[i].review == ReviewGenerator.GenerateFluentReview(themeName, draws[i]))
      && SentimentOverview(rows).total == numReviews
      && BarTotal(SentimentCounts(rows)) == numReviews
  {
    var rows := AnalyzeReviews(ReviewGenerator.GenerateReviews(themeName, numReviews, draws), score);
    SentimentCountsTotal(rows);
  }
}
