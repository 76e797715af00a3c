/**
 * Assembly of one synthetic review sentence and of a batch of them.
 *
 * Every random choice of the generator is a field of a `Draw`: an index into
 * each pool, whether a context clause is included, and which of the five
 * templates is used. Given the draw, assembly is a plain string function.
 */
module ReviewGenerator {
  import opened Text
  import opened Vocabulary

  const TemplateCount: nat := 5

  /** The outcome of the random choices behind one sentence. */
  datatype Draw = Draw(subject: nat, verb: nat, obj: nat, adjective: nat,
                       withContext: bool, context: nat, template: nat)

  /** The words a draw picks out of the pools. */
  datatype Words = Words(subject: string, verb: string, obj: string, adjective: string, context: string)

  /** Every index of the draw is one the pool it selects from can return. */
  predicate ValidDraw(theme: Theme, d: Draw) {
    && d.subject < |Subjects|
    && d.verb < |Verbs()|
    && d.obj < |ObjectPool(theme)|
    && d.adjective < |Adjectives|
    && (d.withContext ==> d.context < |Contexts|)
    && d.template < TemplateCount
  }

  /** The context clause: one of the contexts when drawn, otherwise empty. */
  function ContextClause(d: Draw): (clause: string)
    requires d.withContext ==> d.context < |Contexts|
    ensures clause == [] <==> !d.withContext
    ensures d.withContext ==> clause in Contexts
    ensures Trimmed(clause)
  {
    ContextsTrimmed();
    if d.withContext then Contexts[d.context] else ""
  }

  /**
   * The words drawn for a theme: the object comes from the theme's pool, the
   * verb from the shared verb pool whatever the theme.
   */
  function DrawWords(theme: Theme, d: Draw): (w: Words)
    requires ValidDraw(theme, d)
    ensures w.subject in Subjects && w.verb in Verbs() && w.obj in ObjectPool(theme)
    ensures w.adjective in Adjectives
    ensures w.context == [] || w.context in Contexts
    ensures Trimmed(w.context)
  {
    Words(Subjects[d.subject], Verbs()[d.verb], ObjectPool(theme)[d.obj], Adjectives[d.adjective], ContextClause(d))
  }

  /** Pieces of the first template, "<subj> <verb> <obj>. It was <adj> <context>." */
  function DeclarativeParts(w: Words): seq<string> {
    [w.subject, " ", w.verb, " ", w.obj, ". It was ", w.adjective, " ", w.context, "."]
  }

  /**
   * Pieces of the second template up to its adjective,
   * "Overall, <subject lower-cased> <verb> <obj> and found it <adj>".
   */
  function OverallHeadParts(w: Words): seq<string> {
    ["Overall, ", Lower(w.subject), " ", w.verb, " ", w.obj, " and found it ", w.adjective]
  }

  /** Pieces of the second template before it is stripped: the head, then ". <context>". */
  function OverallParts(w: Words): seq<string> {
    OverallHeadParts(w) + [". ", w.context]
  }

  /** Pieces of the third template, "<subj> felt that <obj> was <adj>. <context>". */
  function FeltThatParts(w: Words): seq<string> {
    [w.subject, " felt that ", w.obj, " was ", w.adjective, ". ", w.context]
  }

  /** Pieces of the fourth template, "In my opinion, <obj> was <adj> <context>. <subj> <verb> it thoroughly." */
  function InMyOpinionParts(w: Words): seq<string> {
    ["In my opinion, ", w.obj, " was ", w.adjective, " ", w.context, ". ", w.subject, " ", w.verb, " it thoroughly."]
  }

  /** Pieces of the fifth template, "<subj> would say the <obj> was <adj>. <context>." */
  function WouldSayParts(w: Words): seq<string> {
    [w.subject, " would say the ", w.obj, " was ", w.adjective, ". ", w.context, "."]
  }

  /** The first template: a space is left before the final period when there is no context. */
  function Declarative(w: Words): string {
    Concat(DeclarativeParts(w))
  }

  /** The second template: the only one the source strips. */
  function Overall(w: Words): string {
    Strip(Concat(OverallParts(w)))
  }

  /** The third template: it ends with the context, or with a dangling space when there is none. */
  function FeltThat(w: Words): string {
    Concat(FeltThatParts(w))
  }

  /** The fourth template: the context sits in the middle, before the second sentence. */
  function InMyOpinion(w: Words): string {
    Concat(InMyOpinionParts(w))
  }

  /** The fifth template: the period after the context doubles when there is none. */
  function WouldSay(w: Words): string {
    Concat(WouldSayParts(w))
  }

  /**
   * The sentence the template numbered `t` makes of the words. The five
   * templates are built side by side and the draw picks one of them; none
   * of them is empty.
   */
  function Template(w: Words, t: nat): (sentence: string)
    requires t < TemplateCount
    ensures sentence != []
  {
    match t
    case 0 => DeclarativeMentions(w); Declarative(w)
    case 1 => OverallNonEmpty(w); Overall(w)
    case 2 => FeltThatMentions(w); FeltThat(w)
    case 3 => InMyOpinionMentions(w); InMyOpinion(w)
    case 4 => WouldSayMentions(w); WouldSay(w)
  }

  lemma Concat2(x: string, y: string)
    ensures Concat([x, y]) == x + y
  {
    assert [x, y][1..] == [y];
    assert [y][1..] == [];
    assert Concat([y]) == y + Concat([]);
  }

  lemma Concat3(x: string, y: string, z: string)
    ensures Concat([x, y, z]) == x + y + z
  {
    assert [x, y, z][1..] == [y, z];
    Concat2(y, z);
  }

  lemma Concat4(x: string, y: string, z: string, v: string)
    ensures Concat([x, y, z, v]) == x + y + z + v
  {
    assert [x, y, z, v][1..] == [y, z, v];
    Concat3(y, z, v);
  }

  /** The unstripped second template is its head followed by ". " and the context. */
  lemma OverallSplit(w: Words)
    ensures Concat(OverallParts(w)) == Concat(OverallHeadParts(w)) + ". " + w.context
  {
    var ps := OverallParts(w);
    ConcatSplit(ps, 8);
    assert ps[..8] == OverallHeadParts(w);
    assert ps[8..] == [". ", w.context];
    Concat2(". ", w.context);
  }

  /**
   * The head of the second template opens with "Overall, ", the lower-cased
   * subject and the verb, and ends with the adjective.
   */
  lemma OverallHeadShape(w: Words)
    ensures var h := Concat(OverallHeadParts(w));
      && StartsWith(h, "Overall, " + Lower(w.subject) + " " + w.verb)
      && EndsWith(h, w.adjective)
  {
    var hs := OverallHeadParts(w);
    ConcatSplit(hs, 4);
    assert hs[..4] == ["Overall, ", Lower(w.subject), " ", w.verb];
    Concat4("Overall, ", Lower(w.subject), " ", w.verb);
    ConcatSplit(hs, 7);
    assert hs[7..] == [w.adjective];
    Concat2(w.adjective, "");
    assert Concat([w.adjective]) == w.adjective + Concat([]);
  }

  /** The unstripped second template opens with 'O', so stripping never empties it. */
  lemma OverallNonEmpty(w: Words)
    ensures Overall(w) != []
  {
    var u := Concat(OverallParts(w));
    OverallSplit(w);
    OverallHeadShape(w);
    assert u[0] == 'O';
    StripNonEmpty(u);
  }

  /**
   * `strip()` changes the second template only when the context is empty,
   * and then it removes exactly the space that would dangle after the final
   * period: the sentence is "<head>." without a context and "<head>. <context>"
   * with one.
   */
  lemma OverallStripped(w: Words)
    requires Trimmed(w.context)
    ensures w.context == [] ==> Overall(w) == Concat(OverallHeadParts(w)) + "."
    ensures w.context != [] ==> Overall(w) == Concat(OverallHeadParts(w)) + ". " + w.context
  {
    var u := Concat(OverallParts(w));
    var head := Concat(OverallHeadParts(w));
    OverallSplit(w);
    OverallHeadShape(w);
    assert head[0] == 'O';
    if w.context == [] {
      var clause := head + ".";
      assert u == clause + " ";
      StripTrailingSpace(clause, " ");
    } else {
      assert u[0] == 'O' && u[|u| - 1] == w.context[|w.context| - 1];
      StripTrimmed(u);
    }
  }

  /**
   * The second template opens with "Overall, ", the lower-cased subject and
   * the verb, whether or not it was stripped.
   */
  lemma OverallOpening(w: Words)
    requires Trimmed(w.context)
    ensures StartsWith(Overall(w), "Overall, " + Lower(w.subject) + " " + w.verb)
  {
    var head := Concat(OverallHeadParts(w));
    OverallStripped(w);
    OverallHeadShape(w);
    var prefix := "Overall, " + Lower(w.subject) + " " + w.verb;
    if w.context == [] {
      StartsWithAppend(head, prefix, ".");
    } else {
      StartsWithAppend(head, prefix, ". ");
      StartsWithAppend(head + ". ", prefix, w.context);
    }
  }

  /** The first template ends with the context and a period, so in "<adj> ." when the context is empty. */
  lemma DeclarativeEnding(w: Words)
    ensures EndsWith(Declarative(w), w.adjective + " " + w.context + ".")
    ensures EndsWith(Declarative(w), w.context + ".")
    ensures w.context == [] ==> EndsWith(Declarative(w), w.adjective + " .")
  {
    var ps := DeclarativeParts(w);
    ConcatEndsWith(ps, 6);
    assert ps[6..] == [w.adjective, " ", w.context, "."];
    Concat4(w.adjective, " ", w.context, ".");
    ConcatEndsWith(ps, 8);
    assert ps[8..] == [w.context, "."];
    Concat2(w.context, ".");
    if w.context == [] {
      assert w.adjective + " " + w.context + "." == w.adjective + " .";
    }
  }

  /**
   * The second template ends in "<adj>." when the context is empty (the
   * strip removed the dangling space) and in "<adj>. <context>" otherwise.
   */
  lemma OverallEnding(w: Words)
    requires Trimmed(w.context)
    ensures w.context == [] ==> EndsWith(Overall(w), w.adjective + ".")
    ensures w.context != [] ==> EndsWith(Overall(w), w.adjective + ". " + w.context)
  {
    var head := Concat(OverallHeadParts(w));
    OverallStripped(w);
    OverallHeadShape(w);
    if w.context == [] {
      EndsWithAppend(head, w.adjective, ".");
    } else {
      EndsWithAppend(head, w.adjective, ". ");
      EndsWithAppend(head + ". ", w.adjective + ". ", w.context);
    }
  }

  /** With a context clause the second template ends with it. */
  lemma OverallEndsWithContext(w: Words)
    requires Trimmed(w.context) && w.context != []
    ensures EndsWith(Overall(w), w.context)
  {
    var head := Concat(OverallHeadParts(w));
    OverallStripped(w);
    EndsWithSelf(head + ". ", w.context);
  }

  /** The third template ends with the context, so in "<adj>. " with a dangling space when it is empty. */
  lemma FeltThatEnding(w: Words)
    ensures EndsWith(FeltThat(w), w.adjective + ". " + w.context)
    ensures EndsWith(FeltThat(w), w.context)
    ensures w.context == [] ==> EndsWith(FeltThat(w), w.adjective + ". ")
  {
    var ps := FeltThatParts(w);
    ConcatEndsWith(ps, 4);
    assert ps[4..] == [w.adjective, ". ", w.context];
    Concat3(w.adjective, ". ", w.context);
    ConcatEndsWith(ps, 6);
    assert ps[6..] == [w.context];
    Concat2(w.context, "");
    assert Concat([w.context]) == w.context + Concat([]);
    if w.context == [] {
      assert w.adjective + ". " + w.context == w.adjective + ". ";
    }
  }

  /** The fourth template always ends with the verb and " it thoroughly.", whatever the context. */
  lemma InMyOpinionEnding(w: Words)
    ensures EndsWith(InMyOpinion(w), w.verb + " it thoroughly.")
    ensures EndsWith(InMyOpinion(w), " it thoroughly.")
  {
    var ps := InMyOpinionParts(w);
    ConcatEndsWith(ps, 9);
    assert ps[9..] == [w.verb, " it thoroughly."];
    Concat2(w.verb, " it thoroughly.");
    ConcatEndsWith(ps, 10);
    assert ps[10..] == [" it thoroughly."];
    assert Concat([" it thoroughly."]) == " it thoroughly." + Concat([]);
  }

  /**
   * The fourth template keeps its own artefact without a context: a space
   * before the period in the middle, "<adj> . <subject>".
   */
  lemma InMyOpinionGap(w: Words)
    requires w.context == []
    ensures Contains(InMyOpinion(w), w.adjective + " . " + w.subject)
  {
    var ps := InMyOpinionParts(w);
    ConcatContainsRun(ps, 3, 8);
    assert ps[3..8] == [w.adjective, " ", w.context, ". ", w.subject];
    assert ps[3..8][1..] == [" ", w.context, ". ", w.subject];
    Concat4(" ", w.context, ". ", w.subject);
    assert " " + w.context + ". " + w.subject == " . " + w.subject;
  }

  /** The fifth template ends with the context and a period, so in "<adj>. ." when the context is empty. */
  lemma WouldSayEnding(w: Words)
    ensures EndsWith(WouldSay(w), w.adjective + ". " + w.context + ".")
    ensures EndsWith(WouldSay(w), w.context + ".")
    ensures w.context == [] ==> EndsWith(WouldSay(w), w.adjective + ". .")
  {
    var ps := WouldSayParts(w);
    ConcatEndsWith(ps, 4);
    assert ps[4..] == [w.adjective, ". ", w.context, "."];
    Concat4(w.adjective, ". ", w.context, ".");
    ConcatEndsWith(ps, 6);
    assert ps[6..] == [w.context, "."];
    Concat2(w.context, ".");
    if w.context == [] {
      assert w.adjective + ". " + w.context + "." == w.adjective + ". .";
    }
  }

  /** The first template mentions every drawn word. */
  lemma DeclarativeMentions(w: Words)
    ensures Contains(Declarative(w), w.subject) && Contains(Declarative(w), w.verb)
    ensures Contains(Declarative(w), w.obj) && Contains(Declarative(w), w.adjective)
    ensures Contains(Declarative(w), w.context) && Contains(Declarative(w), ". It was ")
    ensures Declarative(w) != []
  {
    var ps := DeclarativeParts(w);
    ConcatContains(ps, 0); ConcatContains(ps, 2); ConcatContains(ps, 4);
    ConcatContains(ps, 5); ConcatContains(ps, 6); ConcatContains(ps, 8);
    ContainsNonEmpty(Declarative(w), ". It was ");
  }

  /** The second template opens with its head, whether or not it was stripped. */
  lemma OverallStartsWithHead(w: Words)
    requires Trimmed(w.context)
    ensures StartsWith(Overall(w), Concat(OverallHeadParts(w)))
  {
    var head := Concat(OverallHeadParts(w));
    OverallStripped(w);
    if w.context == [] {
      StartsWithSelf(head, ".");
    } else {
      StartsWithSelf(head, ". ");
      StartsWithAppend(head + ". ", head, w.context);
    }
  }

  /** The second template mentions the drawn words of its head, the subject lower-cased. */
  lemma OverallMentionsHead(w: Words)
    requires Trimmed(w.context)
    ensures Contains(Overall(w), Lower(w.subject)) && Contains(Overall(w), w.verb)
    ensures Contains(Overall(w), w.obj) && Contains(Overall(w), w.adjective)
    ensures Contains(Overall(w), "Overall, ")
  {
    var hs := OverallHeadParts(w);
    OverallStartsWithHead(w);
    PrefixContainsParts(Overall(w), hs);
    assert hs[1] == Lower(w.subject) && hs[3] == w.verb && hs[5] == w.obj && hs[7] == w.adjective;
  }

  /** The second template mentions every drawn word, the subject lower-cased, stripped or not. */
  lemma OverallMentions(w: Words)
    requires Trimmed(w.context)
    ensures Contains(Overall(w), Lower(w.subject)) && Contains(Overall(w), w.verb)
    ensures Contains(Overall(w), w.obj) && Contains(Overall(w), w.adjective)
    ensures Contains(Overall(w), w.context) && Contains(Overall(w), "Overall, ")
    ensures Overall(w) != []
  {
    OverallMentionsHead(w);
    OverallStripped(w);
    if w.context == [] {
      assert Overall(w)[0..0] == w.context;
    } else {
      ContainsSelf(w.context);
      ContainsAppend(w.context, w.context, Concat(OverallHeadParts(w)) + ". ");
    }
    ContainsNonEmpty(Overall(w), "Overall, ");
  }

  /** The third template mentions every drawn word but the verb. */
  lemma FeltThatMentions(w: Words)
    ensures Contains(FeltThat(w), w.subject) && Contains(FeltThat(w), w.obj)
    ensures Contains(FeltThat(w), w.adjective) && Contains(FeltThat(w), w.context)
    ensures Contains(FeltThat(w), " felt that ")
    ensures FeltThat(w) != []
  {
    var ps := FeltThatParts(w);
    ConcatContains(ps, 0); ConcatContains(ps, 1); ConcatContains(ps, 2);
    ConcatContains(ps, 4); ConcatContains(ps, 6);
    ContainsNonEmpty(FeltThat(w), " felt that ");
  }

  /** The fourth template mentions every drawn word. */
  lemma InMyOpinionMentions(w: Words)
    ensures Contains(InMyOpinion(w), w.subject) && Contains(InMyOpinion(w), w.verb)
    ensures Contains(InMyOpinion(w), w.obj) && Contains(InMyOpinion(w), w.adjective)
    ensures Contains(InMyOpinion(w), w.context) && Contains(InMyOpinion(w), "In my opinion, ")
    ensures InMyOpinion(w) != []
  {
    var ps := InMyOpinionParts(w);
    ConcatContains(ps, 0); ConcatContains(ps, 1); ConcatContains(ps, 3);
    ConcatContains(ps, 5); ConcatContains(ps, 7); ConcatContains(ps, 9);
    ContainsNonEmpty(InMyOpinion(w), "In my opinion, ");
  }

  /** The fifth template mentions every drawn word but the verb. */
  lemma WouldSayMentions(w: Words)
    ensures Contains(WouldSay(w), w.subject) && Contains(WouldSay(w), w.obj)
    ensures Contains(WouldSay(w), w.adjective) && Contains(WouldSay(w), w.context)
    ensures Contains(WouldSay(w), " would say the ")
    ensures WouldSay(w) != []
  {
    var ps := WouldSayParts(w);
    ConcatContains(ps, 0); ConcatContains(ps, 1); ConcatContains(ps, 2);
    ConcatContains(ps, 4); ConcatContains(ps, 6);
    ContainsNonEmpty(WouldSay(w), " would say the ");
  }

  /**
   * One review sentence for a theme name: the words are drawn for the branch
   * the name selects and put into the drawn template.
   */
  function GenerateFluentReview(themeName: string, d: Draw): (review: string)
    requires ValidDraw(ThemeOf(themeName), d)
    ensures review != []
  {
    Template(DrawWords(ThemeOf(themeName), d), d.template)
  }

  /** A review drawn with the first template mentions its subject, verb, object, adjective and context. */
  lemma DeclarativeReviewMentions(themeName: string, d: Draw)
    requires ValidDraw(ThemeOf(themeName), d) && d.template == 0
    ensures var review := GenerateFluentReview(themeName, d);
      && review != []
      && Contains(review, Subjects[d.subject]) && Contains(review, Verbs()[d.verb])
      && Contains(review, ObjectPool(ThemeOf(themeName))[d.obj]) && Contains(review, Adjectives[d.adjective])
      && (d.withContext ==> Contains(review, Contexts[d.context]))
  {
    var w := DrawWords(ThemeOf(themeName), d);
    DeclarativeMentions(w);
  }

  /** A review drawn with the second template mentions its lower-cased subject, verb, object, adjective and context. */
  lemma OverallReviewMentions(themeName: string, d: Draw)
    requires ValidDraw(ThemeOf(themeName), d) && d.template == 1
    ensures var review := GenerateFluentReview(themeName, d);
      && review != []
      && Contains(review, Lower(Subjects[d.subject])) && Contains(review, Verbs()[d.verb])
      && Contains(review, ObjectPool(ThemeOf(themeName))[d.obj]) && Contains(review, Adjectives[d.adjective])
      && (d.withContext ==> Contains(review, Contexts[d.context]))
  {
    var w := DrawWords(ThemeOf(themeName), d);
    OverallMentions(w);
  }

  /** A review drawn with the third template mentions its subject, object, adjective and context. */
  lemma FeltThatReviewMentions(themeName: string, d: Draw)
    requires ValidDraw(ThemeOf(themeName), d) && d.template == 2
    ensures var review := GenerateFluentReview(themeName, d);
      && review != [] && Contains(review, Subjects[d.subject])
      && Contains(review, ObjectPool(ThemeOf(themeName))[d.obj]) && Contains(review, Adjectives[d.adjective])
      && (d.withContext ==> Contains(review, Contexts[d.context]))
  {
    var w := DrawWords(ThemeOf(themeName), d);
    FeltThatMentions(w);
  }

  /** A review drawn with the fourth template mentions its subject, verb, object, adjective and context. */
  lemma InMyOpinionReviewMentions(themeName: string, d: Draw)
    requires ValidDraw(ThemeOf(themeName), d) && d.template == 3
    ensures var review := GenerateFluentReview(themeName, d);
      && review != []
      && Contains(review, Subjects[d.subject]) && Contains(review, Verbs()[d.verb])
      && Contains(review, ObjectPool(ThemeOf(themeName))[d.obj]) && Contains(review, Adjectives[d.adjective])
      && (d.withContext ==> Contains(review, Contexts[d.context]))
  {
    var w := DrawWords(ThemeOf(themeName), d);
    InMyOpinionMentions(w);
  }

  /** A review drawn with the fifth template mentions its subject, object, adjective and context. */
  lemma WouldSayReviewMentions(themeName: string, d: Draw)
    requires ValidDraw(ThemeOf(themeName), d) && d.template == 4
    ensures var review := GenerateFluentReview(themeName, d);
      && review != [] && Contains(review, Subjects[d.subject])
      && Contains(review, ObjectPool(ThemeOf(themeName))[d.obj]) && Contains(review, Adjectives[d.adjective])
      && (d.withContext ==> Contains(review, Contexts[d.context]))
  {
    var w := DrawWords(ThemeOf(themeName), d);
    WouldSayMentions(w);
  }

  /**
   * Every review is a non-empty sentence. The drawn object, adjective and
   * context always appear in it; the drawn verb appears except in the third
   * and fifth templates; the drawn subject appears as drawn except in the
   * second template, which lower-cases it.
   */
  lemma ReviewMentionsDraw(themeName: string, d: Draw)
    requires ValidDraw(ThemeOf(themeName), d)
    ensures var review := GenerateFluentReview(themeName, d);
      && review != []
      && Contains(review, ObjectPool(ThemeOf(themeName))[d.obj])
      && Contains(review, Adjectives[d.adjective])
      && (d.withContext ==> Contains(review, Contexts[d.context]))
      && (d.template != 2 && d.template != 4 ==> Contains(review, Verbs()[d.verb]))
      && (d.template != 1 ==> Contains(review, Subjects[d.subject]))
      && (d.template == 1 ==> Contains(review, Lower(Subjects[d.subject])))
  {
    match d.template
    case 0 => DeclarativeReviewMentions(themeName, d);
    case 1 => OverallReviewMentions(themeName, d);
    case 2 => FeltThatReviewMentions(themeName, d);
    case 3 => InMyOpinionReviewMentions(themeName, d);
    case 4 => WouldSayReviewMentions(themeName, d);
  }

  /** A review drawn with the first template ends in "<adj> ." or "<context>.". */
  lemma DeclarativeReviewEnding(themeName: string, d: Draw)
    requires ValidDraw(ThemeOf(themeName), d) && d.template == 0
    ensures !d.withContext ==> EndsWith(GenerateFluentReview(themeName, d), Adjectives[d.adjective] + " .")
    ensures d.withContext ==> EndsWith(GenerateFluentReview(themeName, d), Contexts[d.context] + ".")
  {
    DeclarativeEnding(DrawWords(ThemeOf(themeName), d));
  }

  /** A review drawn with the second template ends in "<adj>." or "<context>". */
  lemma OverallReviewEnding(themeName: string, d: Draw)
    requires ValidDraw(ThemeOf(themeName), d) && d.template == 1
    ensures !d.withContext ==> EndsWith(GenerateFluentReview(themeName, d), Adjectives[d.adjective] + ".")
    ensures d.withContext ==> EndsWith(GenerateFluentReview(themeName, d), Contexts[d.context])
  {
    var w := DrawWords(ThemeOf(themeName), d);
    if d.withContext {
      OverallEndsWithContext(w);
    } else {
      OverallEnding(w);
    }
  }

  /** A review drawn with the third template ends in "<adj>. " or "<context>". */
  lemma FeltThatReviewEnding(themeName: string, d: Draw)
    requires ValidDraw(ThemeOf(themeName), d) && d.template == 2
    ensures !d.withContext ==> EndsWith(GenerateFluentReview(themeName, d), Adjectives[d.adjective] + ". ")
    ensures d.withContext ==> EndsWith(GenerateFluentReview(themeName, d), Contexts[d.context])
  {
    FeltThatEnding(DrawWords(ThemeOf(themeName), d));
  }

  /** A review drawn with the fourth template ends in " it thoroughly.". */
  lemma InMyOpinionReviewEnding(themeName: string, d: Draw)
    requires ValidDraw(ThemeOf(themeName), d) && d.template == 3
    ensures EndsWith(GenerateFluentReview(themeName, d), " it thoroughly.")
  {
    InMyOpinionEnding(DrawWords(ThemeOf(themeName), d));
  }

  /** A review drawn with the fifth template ends in "<adj>. ." or "<context>.". */
  lemma WouldSayReviewEnding(themeName: string, d: Draw)
    requires ValidDraw(ThemeOf(themeName), d) && d.template == 4
    ensures !d.withContext ==> EndsWith(GenerateFluentReview(themeName, d), Adjectives[d.adjective] + ". .")
    ensures d.withContext ==> EndsWith(GenerateFluentReview(themeName, d), Contexts[d.context] + ".")
  {
    WouldSayEnding(DrawWords(ThemeOf(themeName), d));
  }

  /**
   * How a review ends, for the drawn template. Without a context clause each
   * template keeps its punctuation as written: a space before the period
   * (first), a dangling space (third), a doubled period (fifth); the second
   * is stripped to "<adj>.". With a context clause every template but the
   * fourth ends with the clause, the first and fifth with a period after it.
   * The fourth always ends with " it thoroughly.".
   */
  lemma ReviewEndings(themeName: string, d: Draw)
    requires ValidDraw(ThemeOf(themeName), d)
    ensures !d.withContext && d.template == 0 ==> EndsWith(GenerateFluentReview(themeName, d), Adjectives[d.adjective] + " .")
    ensures !d.withContext && d.template == 1 ==> EndsWith(GenerateFluentReview(themeName, d), Adjectives[d.adjective] + ".")
    ensures !d.withContext && d.template == 2 ==> EndsWith(GenerateFluentReview(themeName, d), Adjectives[d.adjective] + ". ")
    ensures !d.withContext && d.template == 4 ==> EndsWith(GenerateFluentReview(themeName, d), Adjectives[d.adjective] + ". .")
    ensures d.template == 3 ==> EndsWith(GenerateFluentReview(themeName, d), " it thoroughly.")
    ensures d.withContext && (d.template == 0 || d.template == 4) ==>
      EndsWith(GenerateFluentReview(themeName, d), Contexts[d.context] + ".")
    ensures d.withContext && (d.template == 1 || d.template == 2) ==>
      EndsWith(GenerateFluentReview(themeName, d), Contexts[d.context])
  {
    match d.template
    case 0 => DeclarativeReviewEnding(themeName, d);
    case 1 => OverallReviewEnding(themeName, d);
    case 2 => FeltThatReviewEnding(themeName, d);
    case 3 => InMyOpinionReviewEnding(themeName, d);
    case 4 => WouldSayReviewEnding(themeName, d);
  }

  /** The third and fifth templates have no place for the verb: changing it changes nothing. */
  lemma VerbUnusedByTemplates2And4(themeName: string, d: Draw, verb: nat)
    requires ValidDraw(ThemeOf(themeName), d) && verb < |Verbs()|
    requires d.template == 2 || d.template == 4
    ensures GenerateFluentReview(themeName, d.(verb := verb)) == GenerateFluentReview(themeName, d)
  {
    var w := DrawWords(ThemeOf(themeName), d);
    TemplatesIgnoreVerb(w, Verbs()[verb]);
    assert DrawWords(ThemeOf(themeName), d.(verb := verb)) == w.(verb := Verbs()[verb]);
  }

  /** The third and fifth sentences are the same whatever verb the words hold. */
  lemma TemplatesIgnoreVerb(w: Words, verb: string)
    ensures FeltThat(w.(verb := verb)) == FeltThat(w)
    ensures WouldSay(w.(verb := verb)) == WouldSay(w)
  {
    assert FeltThatParts(w.(verb := verb)) == FeltThatParts(w);
    assert WouldSayParts(w.(verb := verb)) == WouldSayParts(w);
  }

  /**
   * A batch of `numReviews` reviews for one theme name: the i-th review is
   * made from the i-th draw.
   */
  function GenerateReviews(themeName: string, numReviews: nat, draws: seq<Draw>): (reviews: seq<string>)
    requires |draws| == numReviews
    requires forall i :: 0 <= i < |draws| ==> ValidDraw(ThemeOf(themeName), draws[i])
    ensures |reviews| == numReviews
    ensures forall i :: 0 <= i < numReviews ==> reviews[i] == GenerateFluentReview(themeName, draws[i])
  {
    seq(numReviews, i requires 0 <= i < numReviews => GenerateFluentReview(themeName, draws[i]))
  }

  /**
   * Every review of a batch is a non-empty sentence that mentions an object
   * of the pool the theme name selects, the one its own draw picked.
   */
  lemma GenerateReviewsMentionObjects(themeName: string, numReviews: nat, draws: seq<Draw>)
    requires |draws| == numReviews
    requires forall i :: 0 <= i < |draws| ==> ValidDraw(ThemeOf(themeName), draws[i])
    ensures var reviews := GenerateReviews(themeName, numReviews, draws);
      forall i :: 0 <= i < numReviews ==>
        reviews[i] != [] && Contains(reviews[i], ObjectPool(ThemeOf(themeName))[draws[i].obj])
  {
    var reviews := GenerateReviews(themeName, numReviews, draws);
    forall i | 0 <= i < numReviews
      ensures reviews[i] != [] && Contains(reviews[i], ObjectPool(ThemeOf(themeName))[draws[i].obj])
    {
      ReviewMentionsDraw(themeName, draws[i]);
    }
  }
}
