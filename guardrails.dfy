/**
 * The guardrail rule engine: a table of rules, each a list of patterns with a
 * description and a severity, checked against the lower-cased text; the
 * replacement sanitiser; and the out-of-scope keyword test.
 */
module Guardrails {
  import opened Wrappers
  import opened Text
  import opened Patterns

  datatype Severity = Low | Medium | High {
    function Name(): (n: string)
      ensures n in {"low", "medium", "high"}
    {
      match this
      case Low => "low"
      case Medium => "medium"
      case High => "high"
    }
  }

  datatype Rule = Rule(name: string, patterns: seq<Pattern>, description: string, severity: Severity)

  /**
   * A reported violation; `matched` is `str` of the first `re.findall` item of the
   * rule's first matching pattern: the matched text, its one group's text, or the
   * tuple of its groups' texts.
   */
  datatype Violation = Violation(rule: string, description: string, severity: Severity, matched: string)

  datatype CheckResult = CheckResult(valid: bool, violations: seq<Violation>, severity: Severity, violationCount: nat)

  /** The rule table, in its declaration order. */
  const GUARDRAIL_RULES: seq<Rule> := [
    Rule("legal_advice", [
        [Alt(["you should "]), Group(["definitely", "certainly", "absolutely"]), Alt([" "]), Group(["sue", "file", "take"])],
        [Alt(["you must "]), Group(["sue", "file", "take legal action"])],
        [Alt(["i "]), Group(["strongly ", ""]), Group(["advise", "recommend"]), Alt([" you to"])],
        [Alt(["my "]), Group(["professional ", ""]), Alt(["advice is"])]
      ], "Detected legal advice language", High),
    Rule("outcome_prediction", [
        [Alt(["you will "]), Group(["definitely", "certainly", "likely"]), Alt([" "]), Group(["win", "lose", "succeed", "fail"])],
        [Group(["guaranteed", "certain"]), Alt([" "]), Group(["outcome", "result", "success"])],
        [Alt(["your chances "]), Group(["of winning", "are"]), Alt([" "]), Group(["good", "bad", "high", "low"])],
        [Alt(["the "]), Group(["court", "judge"]), Alt([" will "]), Group(["definitely", "certainly", "likely"])]
      ], "Detected outcome prediction", High),
    Rule("specific_lawyer", [
        [Alt(["contact "]), Group(["this", "my", "our"]), Alt([" lawyer"])],
        [Group(["call", "contact", "email"]), Alt([" "]), Group(["advocate", "lawyer", "attorney"]), Alt([" "]), Run(Letter, 2)],
        [Alt(["phone", "call", "mobile"]), Alt([":"]), Run(Space, 0), Alt(["+", ""]), Run(Digit, 10)]
      ], "Detected specific lawyer recommendation", Medium),
    Rule("medical_advice", [
        [Alt(["you "]), Group(["should", "must"]), Alt([" "]), Group(["take", "stop taking"]), Alt([" "]), Group(["medicine", "medication"])],
        [Group(["my", "this"]), Alt([" "]), Group(["medical", "health"]), Alt([" "]), Group(["advice", "recommendation"])]
      ], "Detected medical advice", High),
    Rule("financial_advice", [
        [Alt(["you "]), Group(["should", "must"]), Alt([" "]), Group(["invest", "buy", "sell"])],
        [Group(["my", "this"]), Alt([" "]), Group(["financial", "investment"]), Alt([" "]), Group(["advice", "recommendation"])]
      ], "Detected financial advice", High),
    Rule("personal_info_request", [
        [Group(["send", "give", "share"]), Alt([" "]), Group(["me", "us"]), Alt([" your "]), Group(["aadhaar", "aadhar", "pan", "passport"])],
        [Group(["your", "the"]), Alt([" "]), Group(["password", "pin", "otp"])]
      ], "Detected personal information request", High),
    Rule("coercive_language", [
        [Alt(["you "]), Group(["have no choice", "must act now", "will regret"])],
        [Group(["urgent", "immediately", "right now"]), Alt([" or "]), Group(["you will", "else"])],
        [Alt(["don't "]), Group(["trust", "listen to"]), Alt([" anyone else"])]
      ], "Detected coercive language", Medium)
  ]

  // ---------------------------------------------------------------------------
  // Specification of check_guardrails

  /** The first match of the first pattern, from index k on, that matches t. */
  function FirstMatchFrom(t: string, patterns: seq<Pattern>, k: nat): (r: Option<string>)
    requires k <= |patterns|
    ensures r.Some? ==> exists j :: k <= j < |patterns| && FindAll(t, patterns[j], true) != [] &&
                                    r.value == Show(FindAll(t, patterns[j], true)[0]) &&
                                    forall i :: k <= i < j ==> FindAll(t, patterns[i], true) == []
    decreases |patterns| - k
  {
    if k == |patterns| then None
    else
      var matches := FindAll(t, patterns[k], true);
      if matches != [] then Some(Show(matches[0])) else FirstMatchFrom(t, patterns, k + 1)
  }

  /** The violation a rule reports on the lower-cased text t, if any of its patterns matches. */
  function RuleViolation(t: string, rule: Rule): (r: Option<Violation>)
    ensures r.Some? ==> r.value.rule == rule.name && r.value.description == rule.description
                        && r.value.severity == rule.severity
    ensures r.Some? ==> exists j :: 0 <= j < |rule.patterns| && FindAll(t, rule.patterns[j], true) != [] &&
                                    r.value.matched == Show(FindAll(t, rule.patterns[j], true)[0]) &&
                                    forall i :: 0 <= i < j ==> FindAll(t, rule.patterns[i], true) == []
  {
    match FirstMatchFrom(t, rule.patterns, 0)
    case None => None
    case Some(m) => Some(Violation(rule.name, rule.description, rule.severity, m))
  }

  /** A rule reports a violation exactly when one of its patterns matches somewhere. */
  lemma RuleViolationIffMatch(t: string, rule: Rule)
    ensures RuleViolation(t, rule).Some? <==>
            exists j :: 0 <= j < |rule.patterns| && Search(t, rule.patterns[j], true).Some?
  {
    FirstMatchNone(t, rule.patterns, 0);
  }

  lemma {:induction false} FirstMatchNone(t: string, patterns: seq<Pattern>, k: nat)
    requires k <= |patterns|
    ensures FirstMatchFrom(t, patterns, k).None? <==> forall j :: k <= j < |patterns| ==> Search(t, patterns[j], true).None?
    decreases |patterns| - k
  {
    if k < |patterns| {
      FirstMatchNone(t, patterns, k + 1);
    }
  }

  /** What each rule reports, in table order. */
  function Reports(t: string, rules: seq<Rule>): (rs: seq<Option<Violation>>)
    ensures |rs| == |rules|
    ensures forall i :: 0 <= i < |rules| ==> rs[i] == RuleViolation(t, rules[i])
  {
    seq(|rules|, i requires 0 <= i < |rules| => RuleViolation(t, rules[i]))
  }

  /** The violations of the rules, in rule order, at most one per rule. */
  function Violations(t: string, rules: seq<Rule>): (vs: seq<Violation>)
    ensures |vs| <= |rules|
  {
    Somes(Reports(t, rules))
  }

  /** "high" if any violation is high, else "medium" if any is medium, else "low". */
  function OverallSeverity(vs: seq<Violation>): (s: Severity)
    ensures s == High <==> exists k :: 0 <= k < |vs| && vs[k].severity == High
    ensures s == Medium <==> (forall k :: 0 <= k < |vs| ==> vs[k].severity != High)
                             && (exists k :: 0 <= k < |vs| && vs[k].severity == Medium)
  {
    if exists k :: 0 <= k < |vs| && vs[k].severity == High then High
    else if exists k :: 0 <= k < |vs| && vs[k].severity == Medium then Medium
    else Low
  }

  /** The result `check_guardrails(text)` returns. */
  function Check(text: string): (r: CheckResult)
    ensures r.valid <==> r.violations == []
    ensures r.violationCount == |r.violations| <= |GUARDRAIL_RULES|
    ensures r.violations == Violations(Lower(text), GUARDRAIL_RULES)
    ensures r.valid ==> r.severity == Low
  {
    var vs := Violations(Lower(text), GUARDRAIL_RULES);
    CheckResult(|vs| == 0, vs, OverallSeverity(vs), |vs|)
  }

  /**
   * The violations are exactly those of the rules with a matching pattern, in
   * table order, one per such rule, each carrying its rule's name, description
   * and severity.
   */
  lemma ViolationsFollowRules(t: string, rules: seq<Rule>) returns (idx: seq<nat>)
    ensures SomesIndexed(Reports(t, rules), Violations(t, rules), idx)
    ensures forall k :: 0 <= k < |idx| ==>
              var v := Violations(t, rules)[k];
              var rule := rules[idx[k]];
              v.rule == rule.name && v.description == rule.description && v.severity == rule.severity
    ensures forall i :: 0 <= i < |rules| ==>
              (i in idx <==> exists j :: 0 <= j < |rules[i].patterns| && Search(t, rules[i].patterns[j], true).Some?)
  {
    idx := SomesIndices(Reports(t, rules));
    forall i | 0 <= i < |rules|
      ensures RuleViolation(t, rules[i]).Some? <==>
              exists j :: 0 <= j < |rules[i].patterns| && Search(t, rules[i].patterns[j], true).Some?
    {
      RuleViolationIffMatch(t, rules[i]);
    }
  }

  // ---------------------------------------------------------------------------
  // check_guardrails, as written: a nested loop with a break per rule

  /** The inner loop of `check_guardrails`: the rule's patterns in order, stopping at the first match. */
  method CheckRule(textLower: string, rule: Rule) returns (v: Option<Violation>)
    ensures v == RuleViolation(textLower, rule)
  {
    var k := 0;
    while k < |rule.patterns|
      invariant 0 <= k <= |rule.patterns|
      invariant FirstMatchFrom(textLower, rule.patterns, 0) == FirstMatchFrom(textLower, rule.patterns, k)
    {
      var matches := FindAll(textLower, rule.patterns[k], true);
      if matches != [] {
        return Some(Violation(rule.name, rule.description, rule.severity, Show(matches[0])));
      }
      k := k + 1;
    }
    return None;
  }

  /** The outer loop of `check_guardrails`: one inner search per rule, keeping what it reports. */
  method CollectViolations(textLower: string, rules: seq<Rule>) returns (violations: seq<Violation>)
    ensures violations == Violations(textLower, rules)
  {
    violations := [];
    ghost var reports := Reports(textLower, rules);
    var r := 0;
    while r < |rules|
      invariant 0 <= r <= |rules|
      invariant violations == Somes(reports[..r])
    {
      var found := CheckRule(textLower, rules[r]);
      SomesPrefix(reports, r);
      if found.Some? {
        violations := violations + [found.value];
      }
      r := r + 1;
    }
    SomesWhole(reports);
  }

  /** `check_guardrails(text)`: at most one violation per rule, in table order. */
  method CheckGuardrails(text: string) returns (result: CheckResult)
    ensures result == Check(text)
  {
    var textLower := Lower(text);
    var violations := CollectViolations(textLower, GUARDRAIL_RULES);
    var severity := OverallSeverity(violations);
    result := CheckResult(|violations| == 0, violations, severity, |violations|);
  }

  // ---------------------------------------------------------------------------
  // sanitize_text

  /** The replacement table of `sanitize_text`, applied in this order. */
  const SANITIZE_REPLACEMENTS: seq<(string, string)> := [
    ("you should definitely", "you may consider"),
    ("you must sue", "you have the option to file a case"),
    ("you will definitely win", "the outcome depends on the case merits"),
    ("you will lose", "outcomes depend on various factors"),
    ("guaranteed", "possible"),
    ("i advise you to", "one option is to"),
    ("i recommend you to", "you might consider"),
    ("you have no choice", "you have several options")
  ]

  /** `sanitize_text(text, violations)`: the violations are not consulted. */
  method SanitizeText(text: string, violations: seq<Violation>) returns (sanitized: string)
    ensures sanitized == Replaced(text, SANITIZE_REPLACEMENTS, |SANITIZE_REPLACEMENTS|, true)
    ensures NoKeyOccurs(text, SANITIZE_REPLACEMENTS, true) ==> sanitized == text
  {
    sanitized := text;
    var n := 0;
    while n < |SANITIZE_REPLACEMENTS|
      invariant 0 <= n <= |SANITIZE_REPLACEMENTS|
      invariant sanitized == Replaced(text, SANITIZE_REPLACEMENTS, n, true)
    {
      var (old_, new_) := SANITIZE_REPLACEMENTS[n];
      sanitized := ReplaceAll(sanitized, old_, new_, true);
      n := n + 1;
    }
    if NoKeyOccurs(text, SANITIZE_REPLACEMENTS, true) {
      ReplacedNoKey(text, SANITIZE_REPLACEMENTS, |SANITIZE_REPLACEMENTS|, true);
    }
  }

  // ---------------------------------------------------------------------------
  // is_out_of_scope

  /** The out-of-scope keyword groups, each one alternation. */
  const OUT_OF_SCOPE_KEYWORDS: seq<seq<string>> := [
    ["recipe", "cooking", "food", "restaurant"],
    ["movie", "film", "entertainment", "music"],
    ["sports", "game", "play", "cricket", "football"],
    ["weather", "temperature", "forecast"],
    ["joke", "funny", "humor"],
    ["dating", "relationship advice"]
  ]

  /** Does some keyword occur in the lower-cased text? */
  predicate OutOfScope(text: string) {
    exists g, w :: g in OUT_OF_SCOPE_KEYWORDS && w in g && Contains(Lower(text), w)
  }

  method IsOutOfScope(text: string) returns (r: bool)
    ensures r <==> OutOfScope(text)
  {
    var textLower := Lower(text);
    var k := 0;
    while k < |OUT_OF_SCOPE_KEYWORDS|
      invariant 0 <= k <= |OUT_OF_SCOPE_KEYWORDS|
      invariant forall j, w :: 0 <= j < k && w in OUT_OF_SCOPE_KEYWORDS[j] ==> !Contains(textLower, w)
    {
      var found := Search(textLower, [Alt(OUT_OF_SCOPE_KEYWORDS[k])], false);
      SearchAltContains(textLower, OUT_OF_SCOPE_KEYWORDS[k]);
      if found.Some? {
        return true;
      }
      k := k + 1;
    }
    return false;
  }

  // ---------------------------------------------------------------------------
  // The repository's test of check_guardrails

  /** The first legal-advice pattern matches the lower-cased test sentence at its start. */
  lemma SueThemMatches()
    ensures Search("you should definitely sue them.", GUARDRAIL_RULES[0].patterns[0], true) == Some(Span(0, 25))
    ensures Captures("you should definitely sue them.", GUARDRAIL_RULES[0].patterns[0], true) == ["definitely", "sue"]
  {
    var t := "you should definitely sue them.";
    var p4: Pattern := [Group(["sue", "file", "take"])];
    var p3: Pattern := [Alt([" "])] + p4;
    var p2: Pattern := [Group(["definitely", "certainly", "absolutely"])] + p3;
    var p: Pattern := [Alt(["you should "])] + p2;
    assert GUARDRAIL_RULES[0].patterns[0] == p;
    assert MatchLen(" them.", [], true) == Some(0);
    MatchFirstOption("sue", " them.", Group(["sue", "file", "take"]), [], true, 0);
    assert [Group(["sue", "file", "take"])] + [] == p4;
    assert "sue" + " them." == "sue them.";
    MatchFirstOption(" ", "sue them.", Alt([" "]), p4, true, 3);
    assert " " + "sue them." == " sue them.";
    MatchFirstOption("definitely", " sue them.", Group(["definitely", "certainly", "absolutely"]), p3, true, 4);
    assert "definitely" + " sue them." == "definitely sue them.";
    MatchFirstOption("you should ", "definitely sue them.", Alt(["you should "]), p2, true, 14);
    SueThemText();
    assert t[0..] == t;
    assert MatchesAt(t, p, true, 0);
  }

  /** `str` of the tuple the test sentence's match reports. */
  lemma SueThemShown()
    ensures Show(Tup(["definitely", "sue"])) == "('definitely', 'sue')"
  {
    assert Show(Tup(["definitely", "sue"])) == "(" + Join(Reprs(["definitely", "sue"]), ", ") + ")";
    var quoted := Reprs(["definitely", "sue"]);
    assert quoted == ["'definitely'", "'sue'"] by {
      assert quoted[0] == "'definitely'" && quoted[1] == "'sue'";
    }
    JoinPair("'definitely'", "'sue'", ", ");
    SueThemTuple();
  }

  lemma SueThemTuple()
    ensures "(" + ("'definitely'" + ", " + "'sue'") + ")" == "('definitely', 'sue')"
  {
  }

  lemma SueThemText()
    ensures "you should " + "definitely sue them." == "you should definitely sue them."
  {
  }

  lemma SueThemLowered()
    ensures Lower("You should definitely sue them.") == "you should definitely sue them."
  {
  }

  /**
   * "You should definitely sue them." is reported; its first violation is
   * legal_advice, whose match is the tuple of the pattern's two groups.
   */
  lemma SueThemIsLegalAdvice()
    ensures !Check("You should definitely sue them.").valid
    ensures Check("You should definitely sue them.").violations[0].rule == "legal_advice"
    ensures Check("You should definitely sue them.").violations[0].matched == "('definitely', 'sue')"
  {
    var t := Lower("You should definitely sue them.");
    SueThemLowered();
    SueThemMatches();
    SueThemMatch(t);
    RuleViolationIffMatch(t, GUARDRAIL_RULES[0]);
    var idx := ViolationsFollowRules(t, GUARDRAIL_RULES);
    assert 0 in idx;
    assert idx[0] == 0;
  }

  lemma SueThemMatch(t: string)
    requires t == "you should definitely sue them."
    ensures RuleViolation(t, GUARDRAIL_RULES[0]) ==
            Some(Violation("legal_advice", "Detected legal advice language", High, "('definitely', 'sue')"))
  {
    var p := GUARDRAIL_RULES[0].patterns[0];
    SueThemMatches();
    assert GroupCount(p) == 2;
    assert t[0..] == t;
    assert FindAll(t, p, true)[0] == Tup(["definitely", "sue"]);
    SueThemShown();
  }
}
