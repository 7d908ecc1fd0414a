/** The content visibility policy of server/config/contentRules.js: a rule
    table keyed by content type name, each rule holding a hide threshold and
    a predicate "the score is below the threshold", and a lookup that
    answers whether an item of a given type is shown. */
module ContentRules {
  import opened Outcomes

  /** The three kinds of daily content the table has a rule for. */
  datatype Kind = Fact | Joke | Recipe

  /** The key under which a kind's rule is stored in the table. */
  function TypeName(k: Kind): string
  {
    match k
    case Fact => "fact"
    case Joke => "joke"
    case Recipe => "recipe"
  }

  /** A content row as the database returns it. The policy reads `score`
      only; the other columns are here so that this can be stated. */
  datatype Content = Content(
    id: int,
    date: string,
    category: string,
    text: string,
    score: int,
    isShown: bool)

  /** One entry of the rule table. */
  datatype Rule = Rule(hideThreshold: int)

  /** An item is hidden once its score is strictly below the threshold;
      for every rule of the table that means a score of -6 or less. */
  predicate ShouldHide(rule: Rule, content: Content)
    ensures rule in VisibilityRules.Values ==> (ShouldHide(rule, content) <==> content.score <= -6)
  {
    content.score < rule.hideThreshold
  }

  /** contentVisibilityRules: every kind hides below -5. */
  const VisibilityRules: map<string, Rule> :=
    map["fact" := Rule(-5), "joke" := Rule(-5), "recipe" := Rule(-5)]

  /** The type names the table has a rule for. */
  const KindNames: set<string> := VisibilityRules.Keys

  /** Names a plain JavaScript object inherits from Object.prototype. Looking
      one of them up in the rule table yields a (truthy) inherited member
      rather than undefined, so the "unknown type" guard lets it through and
      the call of its missing `shouldHide` throws a TypeError instead. */
  const InheritedNames: set<string> := {
    "constructor", "hasOwnProperty", "isPrototypeOf", "propertyIsEnumerable",
    "toString", "toLocaleString", "valueOf", "__proto__",
    "__defineGetter__", "__defineSetter__", "__lookupGetter__", "__lookupSetter__"}

  /** What evaluateContentVisibility throws. */
  datatype VisibilityError =
    | UnknownContentType(typeName: string)
    | ShouldHideNotAFunction(typeName: string)

  /** The message carried by the thrown Error. */
  function ErrorMessage(e: VisibilityError): (m: string)
  {
    match e
    case UnknownContentType(t) => "Unknown content type: " + t
    case ShouldHideNotAFunction(t) => "contentVisibilityRules[type].shouldHide is not a function"
  }

  /** evaluateContentVisibility(type, content): shown exactly when the score
      reaches the kind's threshold; a type without a rule throws. */
  function EvaluateContentVisibility(typeName: string, content: Content): (r: Result<bool, VisibilityError>)
    ensures typeName in KindNames ==> r == Success(content.score >= -5)
    ensures typeName !in KindNames ==> r.Failure? && r.error.typeName == typeName
    ensures typeName !in KindNames && typeName !in InheritedNames ==>
              r == Failure(UnknownContentType(typeName))
              && ErrorMessage(r.error) == "Unknown content type: " + typeName
  {
    if typeName in VisibilityRules then
      Success(!ShouldHide(VisibilityRules[typeName], content))
    else if typeName in InheritedNames then
      Failure(ShouldHideNotAFunction(typeName))
    else
      Failure(UnknownContentType(typeName))
  }

  /** The visibility of a content row of a recognised kind; the lookup
      cannot fail for these. */
  function IsVisible(k: Kind, content: Content): (shown: bool)
    ensures EvaluateContentVisibility(TypeName(k), content) == Success(shown)
    ensures shown <==> content.score >= -5
  {
    EvaluateContentVisibility(TypeName(k), content).value
  }

  /** The table has a rule for exactly the three kinds, each with threshold -5. */
  lemma RuleTableCoversKinds(typeName: string)
    ensures typeName in VisibilityRules <==> exists k: Kind :: TypeName(k) == typeName
    ensures typeName in VisibilityRules ==> VisibilityRules[typeName].hideThreshold == -5
  {
    if typeName == "fact" { assert TypeName(Fact) == typeName; }
    if typeName == "joke" { assert TypeName(Joke) == typeName; }
    if typeName == "recipe" { assert TypeName(Recipe) == typeName; }
  }

  /** For a recognised type the result is "shown" exactly when the score is
      at least -5, in both directions. */
  lemma ShownIffAtLeastThreshold(k: Kind, content: Content)
    ensures EvaluateContentVisibility(TypeName(k), content).Success?
    ensures EvaluateContentVisibility(TypeName(k), content).value <==> content.score >= -5
  {
  }

  /** The boundary the integration test pins: -5 is shown, -6 is hidden. */
  lemma HideBoundary(k: Kind, content: Content)
    ensures content.score == -5 ==> EvaluateContentVisibility(TypeName(k), content) == Success(true)
    ensures content.score == -6 ==> EvaluateContentVisibility(TypeName(k), content) == Success(false)
  {
  }

  /** A type with no rule is an error, never a boolean. */
  lemma UnknownTypeIsError(typeName: string, content: Content)
    requires typeName !in KindNames
    ensures EvaluateContentVisibility(typeName, content).Failure?
  {
  }

  /** All kinds share one threshold, so the answer does not depend on the kind. */
  lemma KindDoesNotMatter(k1: Kind, k2: Kind, content: Content)
    ensures EvaluateContentVisibility(TypeName(k1), content)
         == EvaluateContentVisibility(TypeName(k2), content)
  {
  }

  /** Raising the score never hides a shown item. */
  lemma ShownIsMonotonic(typeName: string, c1: Content, c2: Content)
    requires c1.score <= c2.score
    requires EvaluateContentVisibility(typeName, c1) == Success(true)
    ensures EvaluateContentVisibility(typeName, c2) == Success(true)
  {
  }

  /** Only the type and the score are read: rows that agree on the score
      get the same answer, whatever their other columns hold. */
  lemma OnlyScoreIsRead(typeName: string, c1: Content, c2: Content)
    requires c1.score == c2.score
    ensures EvaluateContentVisibility(typeName, c1) == EvaluateContentVisibility(typeName, c2)
  {
  }
}
