# Synthetic review generation and sentiment tally, in Dafny

This project models the core of `sentiment.py`, a small Streamlit app.

The app does three things:

1. It generates a batch of synthetic customer-review sentences for a chosen theme (Weather, Service, Feedback or Reviews).
2. It classifies each sentence as Positive, Neutral or Negative. The label comes from the sentence's VADER compound score and two fixed thresholds, ±0.05.
3. It summarises the batch. The summary has four overview metrics (total, positive, negative, neutral) and the bars of a sentiment distribution chart, listed Positive, Neutral, Negative.

The model is written in functional style, as the core is: list comprehensions, string templates and pure classification.

- **Text.** Module `Text` models the two Python string operations the templates use:
  - `str.strip()`, with Python's whitespace set;
  - `str.lower()`.

  It also has the predicates used to state facts about sentences: prefix, suffix and substring.
- **Vocabulary.** Module `Vocabulary` holds the word pools and the choice of object pool by theme name.
- **Generator.** Module `ReviewGenerator` assembles one sentence from a `Draw` and builds a batch from a sequence of draws. A `Draw` records the outcome of every random choice the generator makes: one index per pool, whether a context clause is included, and which of the five templates is used.
- **Sentiment.** Module `Sentiment` classifies a compound score and fixes the chart's label order.
- **Aggregation.** Module `Aggregation` builds the results table, the overview metrics and the chart's bars, and proves how they relate.

Punctuation is modelled as the code produces it. Only the second template (`"Overall, …"`) is stripped. Without a context clause, the other templates keep their artefacts:

- the first ends in `"<adjective> ."`;
- the third ends in a dangling space;
- the fourth has a space before the period in its middle, `"<adjective> . <subject>"`;
- the fifth ends in `". ."`.

The lemmas `ReviewEndings`, `InMyOpinionGap` and `OverallStripped` state this exactly. The generator does not check the review count, since its slider only offers 5 to 20. The model therefore accepts any `nat`, including 0.

## Model

| member | source | states |
|---|---|---|
| Vocabulary.Verbs | sentiment.py:103-105 | the verb pool is the 17 positive, negative and neutral verbs together: a verb belongs to it exactly when it belongs to one of the three lists |
| Vocabulary.ThemeOf | sentiment.py:115-126 | "Weather", "Service" and "Feedback" select their own branch; every other string, "Reviews" included, takes the fallback branch, and only such strings do |
| Vocabulary.ThemeOptionsRoundTrip | sentiment.py:99 | the selector offers four distinct options, and each one selects the branch of its own theme |
| Vocabulary.ObjectPool | sentiment.py:106-109 | every theme's object pool has five entries |
| Vocabulary.ObjectPoolsDisjoint | sentiment.py:106-109 | no object belongs to two themes' pools |
| Vocabulary.ContextsTrimmed | sentiment.py:111 | every context clause is non-empty and has no whitespace at either end |
| Text.Strip | sentiment.py:131 | the result of `strip()` starts and ends with a non-whitespace character (or is empty) and is no longer than its input |
| Text.StripIsSlice | sentiment.py:131 | `strip()` keeps a contiguous slice of its input and removes only whitespace on either side of it |
| Text.StripIdempotent | sentiment.py:131 | stripping twice is stripping once |
| Text.StripTrailingSpace | sentiment.py:131 | `strip()` of a trimmed non-empty string followed by whitespace gives back that string |
| Text.Lower | sentiment.py:131 | `lower()` keeps the length of the string; what it does to each character is stated by `Text.LowerPointwise` |
| Text.LowerPointwise | sentiment.py:131 | `lower()` maps each character on its own and leaves no ASCII capital |
| ReviewGenerator.ContextClause | sentiment.py:128 | the clause is empty exactly when no context was drawn, and otherwise one of the contexts; it is always trimmed |
| ReviewGenerator.DrawWords | sentiment.py:114-127 | the words a draw picks come from their pools, the object from the pool of the theme's branch and the verb from the shared pool |
| ReviewGenerator.Declarative | sentiment.py:130 | no contract of its own: the first f-string, whose ending and contents `DeclarativeEnding` and `DeclarativeMentions` state |
| ReviewGenerator.Overall | sentiment.py:131 | no contract of its own: the second f-string followed by `strip()`, whose exact result `OverallStripped` states |
| ReviewGenerator.FeltThat | sentiment.py:132 | no contract of its own: the third f-string, whose ending and contents `FeltThatEnding` and `FeltThatMentions` state |
| ReviewGenerator.InMyOpinion | sentiment.py:133 | no contract of its own: the fourth f-string, whose ending, gap and contents `InMyOpinionEnding`, `InMyOpinionGap` and `InMyOpinionMentions` state |
| ReviewGenerator.WouldSay | sentiment.py:134 | no contract of its own: the fifth f-string, whose ending and contents `WouldSayEnding` and `WouldSayMentions` state |
| ReviewGenerator.Template | sentiment.py:129-135 | the template picked by its number from the five built side by side; none of the five sentences is empty |
| ReviewGenerator.OverallNonEmpty | sentiment.py:131 | the stripped second template is never empty, since the sentence opens with "Overall, " |
| ReviewGenerator.OverallStripped | sentiment.py:131 | the stripped second template is "<head>." without a context and "<head>. <context>" with one: `strip()` removes exactly the dangling space |
| ReviewGenerator.OverallOpening | sentiment.py:131 | the second template opens with "Overall, ", the lower-cased subject and the verb |
| ReviewGenerator.DeclarativeEnding | sentiment.py:130 | the first template ends in "<adjective> <context>.", so in "<adjective> ." without a context |
| ReviewGenerator.OverallEnding | sentiment.py:131 | the second template ends in "<adjective>." without a context and in "<adjective>. <context>" with one |
| ReviewGenerator.FeltThatEnding | sentiment.py:132 | the third template ends in "<adjective>. <context>", so in a dangling space without a context |
| ReviewGenerator.InMyOpinionEnding | sentiment.py:133 | the fourth template ends in "<verb> it thoroughly." whatever the context |
| ReviewGenerator.InMyOpinionGap | sentiment.py:133 | without a context, the fourth template contains "<adjective> . <subject>", with a space before the period |
| ReviewGenerator.WouldSayEnding | sentiment.py:134 | the fifth template ends in "<adjective>. <context>.", so in ". ." without a context |
| ReviewGenerator.DeclarativeMentions | sentiment.py:130 | the first template contains the subject, verb, object, adjective and context, and is non-empty |
| ReviewGenerator.OverallMentions | sentiment.py:131 | the second template contains the lower-cased subject, verb, object, adjective and context, stripped or not, and is non-empty |
| ReviewGenerator.FeltThatMentions | sentiment.py:132 | the third template contains the subject, object, adjective and context, and is non-empty |
| ReviewGenerator.InMyOpinionMentions | sentiment.py:133 | the fourth template contains the subject, verb, object, adjective and context, and is non-empty |
| ReviewGenerator.WouldSayMentions | sentiment.py:134 | the fifth template contains the subject, object, adjective and context, and is non-empty |
| ReviewGenerator.GenerateFluentReview | sentiment.py:113-136 | one review is never empty; which drawn words it contains and how it ends are stated by `ReviewMentionsDraw` and `ReviewEndings` |
| ReviewGenerator.ReviewMentionsDraw | sentiment.py:113-136 | every generated review is non-empty and contains the drawn object (from the theme's pool), adjective and context; it contains the drawn verb except in the third and fifth templates, and the drawn subject as drawn except in the second, which contains it lower-cased |
| ReviewGenerator.ReviewEndings | sentiment.py:128-136 | how a generated review ends, for each template, with and without a context clause |
| ReviewGenerator.VerbUnusedByTemplates2And4 | sentiment.py:132-134 | with the third or fifth template, the drawn verb has no effect on the review |
| ReviewGenerator.GenerateReviews | sentiment.py:140 | a batch holds exactly the requested number of reviews, the i-th made from the i-th draw |
| ReviewGenerator.GenerateReviewsMentionObjects | sentiment.py:140 | every review of a batch is non-empty and contains an object of the pool the theme selects |
| Sentiment.AnalyzeSentiment | sentiment.py:152-160 | Positive exactly when the score is at least 0.05, Negative exactly when at most -0.05, Neutral exactly in between; the confidence is the score itself |
| Sentiment.AnalyzeMonotone | sentiment.py:155-160 | a higher score never gets a more negative label |
| Sentiment.ThresholdBoundaries | sentiment.py:155-160 | 0.05 is Positive, -0.05 is Negative, and 0 and ±0.0499 are Neutral |
| Sentiment.LabelOf | sentiment.py:156-160 | the three label names are recognised and no other string is |
| Sentiment.LabelName | sentiment.py:156-160 | no contract of its own: the string returned for each label; `LabelNameRoundTrip` shows that no two labels share a name |
| Sentiment.LabelNameRoundTrip | sentiment.py:156-160 | each label is recognised from its own name |
| Sentiment.DisplayIndexInOrder | sentiment.py:180 | the chart's order `SentimentOrder` has three entries and lists every label, each at its display position |
| Sentiment.DisplayIndex | sentiment.py:180-181 | no contract of its own: the position of a label among the categories; `DisplayIndexInOrder` ties it to `SentimentOrder`, the `sentiment_order` list |
| Sentiment.DisplayOrderByPolarity | sentiment.py:180-182 | in the chart's order, one label comes before another exactly when it is more positive |
| Aggregation.AnalyzeReviews | sentiment.py:162-164 | the table has one row per review, in order, with the review column first and each row's sentiment and confidence being that review's analysis |
| Aggregation.Count | sentiment.py:167-169 | the number of rows whose sentiment equals a label, never more than the number of rows |
| Aggregation.CountIsMultiplicity | sentiment.py:167-169 | the count of a label is its multiplicity in the sentiment column |
| Aggregation.CountsPartition | sentiment.py:166-169 | the positive, neutral and negative counts add up to the total |
| Aggregation.CountsByScore | sentiment.py:155-169 | the positive and negative counts are the numbers of reviews whose score reaches the respective threshold, and the neutral count is the rest |
| Aggregation.SentimentOverview | sentiment.py:166-176 | the four metrics: the total is the number of rows, the three label counts are the label multiplicities and add up to the total |
| Aggregation.Bars | sentiment.py:178-182 | every bar is a label of the given order with its count in the table, which is non-zero, and there are no more bars than labels in the order; `BarsComplete` and `BarsOrdered` state that every present label gets a bar and the order is kept |
| Aggregation.BarsComplete | sentiment.py:178 | every label that occurs in the table gets a bar |
| Aggregation.BarsOrdered | sentiment.py:181-182 | bars taken in the chart's order stay in that order |
| Aggregation.SentimentCounts | sentiment.py:178-182 | one bar per label present in the table, each with its count and none with a zero count, listed Positive, Neutral, Negative |
| Aggregation.BarsKeepTotal | sentiment.py:178 | leaving out absent labels loses nothing from the sum of the counts |
| Aggregation.SentimentCountsTotal | sentiment.py:178-182 | the bars' counts add up to the number of rows |
| Aggregation.BatchOverview | sentiment.py:139-182 | for a whole batch, the table has exactly the requested number of rows, in generation order, and both the overview total and the bars' sum equal the requested count |

## Left out

- The Streamlit user interface is not modelled: the widgets, the session state, the success messages and the data-frame displays (lines 98, 100, 139, 141-149 and 197-199). The theme name and the review count are parameters.
- The random source is not modelled. Each `random.choice` and the `random.random() < 0.6` test become fields of a `Draw`. The 60% probability of a context clause and the uniform distributions are not modelled; only which outcomes are possible is.
- The VADER analyser, its lexicon download and its `polarity_scores` are not part of this model. The compound score is a real-valued parameter: a `string -> real` function for a whole table. Its range is not assumed.
- Floating-point scores are modelled as mathematical reals, so rounding at the thresholds is not captured.
- Text.Lower: `str.lower()` is modelled only on ASCII letters. Every pool word is ASCII, so the generated text is unaffected.
- `str(x)` in the analysis step is the identity here, because every review is already a string.
- The chart itself is not modelled: the bar figure, its colours, its title and its layout (lines 184-195). Its data, the ordered counts, is modelled.
- The order `value_counts()` produces (by descending count) is not modelled. The categorical sort on the next lines replaces it completely, since each label appears at most once.
- The slider bounds of 5 to 20 reviews are not enforced. The model accepts any number of reviews.
