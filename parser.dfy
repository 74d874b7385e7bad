/**
 * The keyword classifier that turns the onboarding agent's free-text answer into the
 * structured record the route persists. It never fails: every input yields a record.
 */
module AgentResponse {
  import opened Wrappers
  import opened Text
  import opened Schema

  const Viable := "viable"
  const Oversaturated := "oversaturated"
  const PivotNeeded := "pivot_needed"
  const Large := "large"
  const Medium := "medium"
  const Small := "small"
  const Unknown := "unknown"
  /** The recommendations text every parsed record carries. */
  const FullAssessmentPlaceholder := "See full assessment for details"

  /** A lead as an extractor could report it; every field may be absent. */
  datatype ParsedLead = ParsedLead(
    source: Option<string>,
    url: Option<string>,
    title: Option<string>,
    description: Option<string>,
    contact: Option<string>,
    painPointMatch: Option<string>,
    outreachStrategy: Option<string>,
    priority: Option<int>)

  /** The structured record extracted from one agent answer. */
  datatype ParsedAnalysis = ParsedAnalysis(
    marketViability: string,
    marketSize: string,
    competitors: seq<Json>,
    customerSegments: seq<Json>,
    painPoints: seq<Json>,
    marketTrends: seq<Json>,
    assessment: string,
    recommendations: string,
    leads: seq<ParsedLead>)

  /** Market viability: the if/else-if chain over the lower-cased text. */
  function ClassifyViability(lowered: string): string {
    if Contains(lowered, "viable") && !Contains(lowered, "not viable") then Viable
    else if Contains(lowered, "oversaturated") then Oversaturated
    else if Contains(lowered, "pivot") then PivotNeeded
    else Unknown
  }

  /** Market size: the if/else-if chain over the lower-cased text. */
  function ClassifySize(lowered: string): string {
    if Contains(lowered, "large market") then Large
    else if Contains(lowered, "medium market") || Contains(lowered, "moderate market") then Medium
    else if Contains(lowered, "small market") || Contains(lowered, "niche") then Small
    else Unknown
  }

  /** `parseAgentResponse`: classify viability and size, keep the text as the assessment, extract nothing else. */
  function ParseAgentResponse(response: string): (r: ParsedAnalysis)
    ensures r.marketViability in {Viable, Oversaturated, PivotNeeded, Unknown}
    ensures r.marketSize in {Large, Medium, Small, Unknown}
    ensures r.assessment == response && r.recommendations == FullAssessmentPlaceholder
    ensures r.competitors == [] && r.customerSegments == [] && r.painPoints == [] && r.marketTrends == []
    ensures r.leads == []
  {
    var lowered := Lower(response);
    ParsedAnalysis(ClassifyViability(lowered), ClassifySize(lowered), [], [], [], [], response, FullAssessmentPlaceholder, [])
  }

  // ---------------------------------------------------------------------------
  // An independent reading of the classifiers: a table of rules, first match wins.

  /** A rule fires when the text contains one of `anyOf` and none of `noneOf`. */
  datatype Rule = Rule(anyOf: seq<string>, noneOf: seq<string>, verdict: string)

  predicate Fires(rule: Rule, text: string) {
    ContainsAny(text, rule.anyOf) && !ContainsAny(text, rule.noneOf)
  }

  /** Whether `text` contains at least one of `patterns`. */
  predicate ContainsAny(text: string, patterns: seq<string>) {
    patterns != [] && (Contains(text, patterns[0]) || ContainsAny(text, patterns[1..]))
  }

  /** The verdict of the first rule that fires, or `fallback` when none does. */
  function FirstMatch(rules: seq<Rule>, text: string, fallback: string): (r: string)
    ensures r == fallback || exists i :: 0 <= i < |rules| && r == rules[i].verdict
  {
    if rules == [] then fallback
    else if Fires(rules[0], text) then rules[0].verdict
    else FirstMatch(rules[1..], text, fallback)
  }

  /** First match wins: when rule `i` is the first to fire, its verdict is the answer. */
  lemma {:induction false} FirstMatchPicksFirstFiring(rules: seq<Rule>, text: string, fallback: string, i: nat)
    requires i < |rules| && Fires(rules[i], text)
    requires forall j :: 0 <= j < i ==> !Fires(rules[j], text)
    ensures FirstMatch(rules, text, fallback) == rules[i].verdict
  {
    if i > 0 {
      FirstMatchPicksFirstFiring(rules[1..], text, fallback, i - 1);
    }
  }

  /** When no rule fires, the fallback is the answer. */
  lemma {:induction false} FirstMatchFallsBack(rules: seq<Rule>, text: string, fallback: string)
    requires forall j :: 0 <= j < |rules| ==> !Fires(rules[j], text)
    ensures FirstMatch(rules, text, fallback) == fallback
  {
    if rules != [] {
      FirstMatchFallsBack(rules[1..], text, fallback);
    }
  }

  const ViabilityRules: seq<Rule> := [
    Rule(["viable"], ["not viable"], Viable),
    Rule(["oversaturated"], [], Oversaturated),
    Rule(["pivot"], [], PivotNeeded)]

  const SizeRules: seq<Rule> := [
    Rule(["large market"], [], Large),
    Rule(["medium market", "moderate market"], [], Medium),
    Rule(["small market", "niche"], [], Small)]

  /** A one-pattern list is contained exactly when its pattern is. */
  lemma ContainsAnySingle(text: string, p: string)
    ensures ContainsAny(text, [p]) <==> Contains(text, p)
  {
    assert [p][1..] == [];
  }

  /** A two-pattern list is contained exactly when either pattern is. */
  lemma ContainsAnyPair(text: string, p: string, q: string)
    ensures ContainsAny(text, [p, q]) <==> Contains(text, p) || Contains(text, q)
  {
    assert [p, q][1..] == [q];
    ContainsAnySingle(text, q);
  }

  /** A three-rule table unfolds into a three-way if/else-if chain. */
  lemma FirstMatchOfThree(r: seq<Rule>, text: string, fallback: string)
    requires |r| == 3
    ensures FirstMatch(r, text, fallback)
         == if Fires(r[0], text) then r[0].verdict
            else if Fires(r[1], text) then r[1].verdict
            else if Fires(r[2], text) then r[2].verdict
            else fallback
  {
    var t1 := r[1..];
    var t2 := t1[1..];
    assert t2[1..] == [];
    assert FirstMatch(t2, text, fallback) == if Fires(r[2], text) then r[2].verdict else fallback;
    assert FirstMatch(t1, text, fallback) == if Fires(r[1], text) then r[1].verdict else FirstMatch(t2, text, fallback);
  }

  /** The viability chain is the first-match reading of `ViabilityRules` with fallback "unknown". */
  lemma ViabilityFollowsRules(lowered: string)
    ensures ClassifyViability(lowered) == FirstMatch(ViabilityRules, lowered, Unknown)
  {
    var r := ViabilityRules;
    ContainsAnySingle(lowered, "viable");
    ContainsAnySingle(lowered, "not viable");
    ContainsAnySingle(lowered, "oversaturated");
    ContainsAnySingle(lowered, "pivot");
    FirstMatchOfThree(r, lowered, Unknown);
  }

  /** The size chain is the first-match reading of `SizeRules` with fallback "unknown". */
  lemma SizeFollowsRules(lowered: string)
    ensures ClassifySize(lowered) == FirstMatch(SizeRules, lowered, Unknown)
  {
    var r := SizeRules;
    ContainsAnySingle(lowered, "large market");
    ContainsAnyPair(lowered, "medium market", "moderate market");
    ContainsAnyPair(lowered, "small market", "niche");
    FirstMatchOfThree(r, lowered, Unknown);
  }

  // ---------------------------------------------------------------------------
  // Properties of the parser.

  /** Matching ignores ASCII case: parsing the lower-cased text classifies exactly as parsing the original. */
  lemma ParseIgnoresCase(response: string)
    ensures ParseAgentResponse(Lower(response)).marketViability == ParseAgentResponse(response).marketViability
    ensures ParseAgentResponse(Lower(response)).marketSize == ParseAgentResponse(response).marketSize
  {
    LowerIdempotent(response);
  }

  /**
   * "not viable" contains "viable", yet a text saying "not viable" is never classified viable:
   * it falls through to the oversaturated, pivot and unknown tests.
   */
  lemma NotViableIsNeverViable(response: string)
    requires Contains(Lower(response), "not viable")
    ensures Contains(Lower(response), "viable")
    ensures ParseAgentResponse(response).marketViability in {Oversaturated, PivotNeeded, Unknown}
  {
    assert StartsWith("not viable"[4..], "viable");
    ContainsIff("not viable", "viable");
    ContainsTransitive(Lower(response), "not viable", "viable");
  }

  /** Oversaturation is tested before a pivot: a text mentioning both, and not "viable", is oversaturated. */
  lemma OversaturatedBeatsPivot(response: string)
    requires !Contains(Lower(response), "viable")
    requires Contains(Lower(response), "oversaturated") && Contains(Lower(response), "pivot")
    ensures ParseAgentResponse(response).marketViability == Oversaturated
  {
  }

  /** "viable" ranks above every later test, whatever else the text says. */
  lemma ViableBeatsEverything(response: string)
    requires Contains(Lower(response), "viable") && !Contains(Lower(response), "not viable")
    ensures ParseAgentResponse(response).marketViability == Viable
  {
  }

  /** A niche without any large, medium or moderate market is a small market. */
  lemma NicheIsSmall(response: string)
    requires Contains(Lower(response), "niche")
    requires !Contains(Lower(response), "large market")
    requires !Contains(Lower(response), "medium market") && !Contains(Lower(response), "moderate market")
    ensures ParseAgentResponse(response).marketSize == Small
  {
  }

  /**
   * A text without the letters v, m and n (in either case) holds no keyword at all, so it gets
   * "unknown" for both fields and the placeholder recommendations; "Great idea." is one such text.
   */
  lemma NoKeywordsGiveUnknown(response: string)
    requires 'v' !in response && 'V' !in response
    requires 'm' !in response && 'M' !in response
    requires 'n' !in response && 'N' !in response
    ensures ParseAgentResponse(response).marketViability == Unknown
    ensures ParseAgentResponse(response).marketSize == Unknown
    ensures ParseAgentResponse(response).recommendations == FullAssessmentPlaceholder
  {
    var low := Lower(response);
    LetterAbsentAfterLower(response, 'v');
    LetterAbsentAfterLower(response, 'm');
    LetterAbsentAfterLower(response, 'n');
    ContainedCharsOccur(low, "viable", 'v');
    ContainedCharsOccur(low, "oversaturated", 'v');
    ContainedCharsOccur(low, "pivot", 'v');
    ContainedCharsOccur(low, "large market", 'm');
    ContainedCharsOccur(low, "medium market", 'm');
    ContainedCharsOccur(low, "moderate market", 'm');
    ContainedCharsOccur(low, "small market", 'm');
    ContainedCharsOccur(low, "niche", 'n');
  }
}
