/**
 * The fixed word pools the review generator draws from, and the choice of
 * object pool by theme.
 */
module Vocabulary {
  import Text

  const Subjects: seq<string> :=
    ["I", "We", "My friend", "The team", "Customer service", "The product", "The staff", "Our experience"]
  const VerbsPositive: seq<string> :=
    ["loved", "enjoyed", "appreciated", "valued", "adored", "found excellent"]
  const VerbsNegative: seq<string> :=
    ["hated", "disliked", "was disappointed by", "was frustrated by", "couldn't enjoy"]
  const VerbsNeutral: seq<string> :=
    ["experienced", "noticed", "found", "tried", "observed", "encountered"]
  const ObjectsWeather: seq<string> :=
    ["the sunny day", "the rain", "stormy conditions", "the cold weather", "the heatwave"]
  const ObjectsService: seq<string> :=
    ["the staff", "the support team", "the customer service", "the assistance", "the guidance"]
  const ObjectsFeedback: seq<string> :=
    ["the process", "the feedback system", "the form", "the survey", "the response"]
  const ObjectsReviews: seq<string> :=
    ["the review process", "the opinions shared", "the ratings", "the comments", "the evaluations"]
  const Adjectives: seq<string> :=
    ["amazing", "terrible", "okay", "fantastic", "poor", "average", "excellent", "mediocre", "satisfying", "disappointing"]
  const Contexts: seq<string> :=
    ["during a rainy afternoon", "on a sunny morning", "after a long wait", "before the storm", "while deciding", "after reviewing all options"]

  /**
   * The pool every verb is drawn from, whatever the theme: the positive,
   * negative and neutral verbs together, so the verb's polarity is not fixed
   * by the theme.
   */
  function Verbs(): (verbs: seq<string>)
    ensures |verbs| == 17
    ensures forall v :: v in verbs <==> v in VerbsPositive || v in VerbsNegative || v in VerbsNeutral
  {
    VerbsPositive + VerbsNegative + VerbsNeutral
  }

  /** The themes offered by the theme selector. */
  datatype Theme = Weather | Service | Feedback | Reviews

  /** The selector's option list, in its display order. */
  const ThemeOptions: seq<string> := ["Weather", "Service", "Feedback", "Reviews"]

  function ThemeName(theme: Theme): string {
    match theme
    case Weather => "Weather"
    case Service => "Service"
    case Feedback => "Feedback"
    case Reviews => "Reviews"
  }

  /**
   * The branch the generator takes for a theme string: the three named
   * themes are recognised and every other string, "Reviews" included, takes
   * the fallback branch.
   */
  function ThemeOf(name: string): (theme: Theme)
    ensures theme != Reviews ==> ThemeName(theme) == name
    ensures theme == Reviews <==> name != "Weather" && name != "Service" && name != "Feedback"
  {
    if name == "Weather" then Weather
    else if name == "Service" then Service
    else if name == "Feedback" then Feedback
    else Reviews
  }

  /** Every option of the selector names its own theme. */
  lemma ThemeOptionsRoundTrip()
    ensures |ThemeOptions| == 4
    ensures forall theme: Theme :: ThemeName(theme) in ThemeOptions && ThemeOf(ThemeName(theme)) == theme
    ensures forall i, j :: 0 <= i < j < |ThemeOptions| ==> ThemeOptions[i] != ThemeOptions[j]
  {
  }

  /** The pool the object of a sentence is drawn from. */
  function ObjectPool(theme: Theme): (pool: seq<string>)
    ensures |pool| == 5
  {
    match theme
    case Weather => ObjectsWeather
    case Service => ObjectsService
    case Feedback => ObjectsFeedback
    case Reviews => ObjectsReviews
  }

  /** No object belongs to two themes, so the object names the theme it came from. */
  lemma ObjectPoolsDisjoint(t1: Theme, t2: Theme, obj: string)
    requires obj in ObjectPool(t1) && obj in ObjectPool(t2)
    ensures t1 == t2
  {
  }

  /**
   * Every context clause is a non-empty phrase with no whitespace at its
   * ends, so leaving it out is the only way a sentence gets an empty clause.
   */
  lemma ContextsTrimmed()
    ensures forall c :: c in Contexts ==> c != [] && Text.Trimmed(c)
  {
  }
}
