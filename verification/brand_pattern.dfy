/**
  Brand recognition by number prefix for the ELO and HIPER networks, and
  their length rules (CreditCardNumber.java, ELO_REGEX, HIPER_REGEX and the
  isValid... checks).

  Each brand's pattern is `^(alt1|alt2|...)[0-9]*`, searched with
  Matcher.find. The anchor pins the match to the start of the string and the
  trailing `[0-9]*` may match nothing, so a string matches exactly when it
  begins with one of the alternatives, whatever follows. Every alternative of
  the source is a literal or a literal stem followed by one character from a
  digit range, so the patterns are kept here as tables of such rules, in the
  source's order and with its repetitions.
*/
module BrandPattern {

  /**
    One alternative of a brand pattern: a literal prefix, or a literal stem
    followed by one character between `lo` and `hi`.
  */
  datatype PrefixRule =
    | Literal(text: string)
    | StemThenDigit(stem: string, lo: char, hi: char)

  predicate StartsWith(s: seq<char>, p: seq<char>) {
    p <= s
  }

  /** Whether `s` begins with a string the rule describes. */
  predicate MatchesRule(s: seq<char>, rule: PrefixRule) {
    match rule
    case Literal(text) => StartsWith(s, text)
    case StemThenDigit(stem, lo, hi) => StartsWith(s, stem) && |stem| < |s| && lo <= s[|stem|] <= hi
  }

  /** How many leading characters of the input the rule inspects. */
  function RuleLength(rule: PrefixRule): nat {
    match rule
    case Literal(text) => |text|
    case StemThenDigit(stem, _, _) => |stem| + 1
  }

  /** HIPER_REGEX: `^(3841|606282)[0-9]*`. */
  const HiperRules: seq<PrefixRule> := [Literal("3841"), Literal("606282")]

  /**
    ELO_REGEX, alternative by alternative: `40117(8|9)`, `431274`, `438935`,
    `636297`, `451416`, `45763(1|2)`, `504175`, `627780`, `636297` (again),
    `636368`, `506699`, `457393`, `5067([0-6])`, `50677([0-8])`, `509[0-9]`.
  */
  const EloRules: seq<PrefixRule> := [
    StemThenDigit("40117", '8', '9'),
    Literal("431274"),
    Literal("438935"),
    Literal("636297"),
    Literal("451416"),
    StemThenDigit("45763", '1', '2'),
    Literal("504175"),
    Literal("627780"),
    Literal("636297"),
    Literal("636368"),
    Literal("506699"),
    Literal("457393"),
    StemThenDigit("5067", '0', '6'),
    StemThenDigit("50677", '0', '8'),
    StemThenDigit("509", '0', '9')
  ]

  /**
    checkNumberPatternValid: tries the alternatives in order and succeeds
    as soon as one of them matches at the start of `number`.
  */
  function CheckNumberPatternValid(number: seq<char>, rules: seq<PrefixRule>): (r: bool)
    ensures r <==> exists i :: 0 <= i < |rules| && MatchesRule(number, rules[i])
    decreases |rules|
  {
    if rules == [] then false
    else MatchesRule(number, rules[0]) || CheckNumberPatternValid(number, rules[1..])
  }

  /** isValidEloCard: ELO_REGEX applied to the number; true exactly for the listed ELO prefixes. */
  function IsValidEloCard(numberString: seq<char>): (r: bool)
    ensures r <==> EloPrefix(numberString)
  {
    EloCardIffPrefix(numberString);
    CheckNumberPatternValid(numberString, EloRules)
  }

  /** isValidHiperCard: HIPER_REGEX applied to the number; true exactly for 3841 and 606282. */
  function IsValidHiperCard(numberString: seq<char>): (r: bool)
    ensures r <==> HiperPrefix(numberString)
  {
    HiperCardIffPrefix(numberString);
    CheckNumberPatternValid(numberString, HiperRules)
  }

  /** isValidEloLength: ELO numbers have sixteen digits. */
  function IsValidEloLength(length: int): bool {
    length == 16
  }

  /** isValidHiperLength: HIPER numbers have sixteen or nineteen digits. */
  function IsValidHiperLength(length: int): bool {
    length == 16 || length == 19
  }

  /**
    The ELO prefixes written out as plain conditions on the leading
    characters, grouped by their first digit rather than in the pattern's
    order.
  */
  ghost predicate EloPrefix(s: seq<char>) {
    EloPrefixFrom4(s) || EloPrefixFrom5(s) || EloPrefixFrom6(s)
  }

  ghost predicate EloPrefixFrom4(s: seq<char>) {
    || StartsWith(s, "401178") || StartsWith(s, "401179")
    || StartsWith(s, "431274") || StartsWith(s, "438935")
    || StartsWith(s, "451416") || StartsWith(s, "457393")
    || StartsWith(s, "457631") || StartsWith(s, "457632")
  }

  ghost predicate EloPrefixFrom5(s: seq<char>) {
    || StartsWith(s, "504175") || StartsWith(s, "506699")
    || EloPrefix5067(s) || EloPrefix50677(s) || EloPrefix509(s)
  }

  /** 50670 to 50676. */
  ghost predicate EloPrefix5067(s: seq<char>) {
    || StartsWith(s, "50670") || StartsWith(s, "50671") || StartsWith(s, "50672")
    || StartsWith(s, "50673") || StartsWith(s, "50674") || StartsWith(s, "50675")
    || StartsWith(s, "50676")
  }

  /** 506770 to 506778. */
  ghost predicate EloPrefix50677(s: seq<char>) {
    || StartsWith(s, "506770") || StartsWith(s, "506771") || StartsWith(s, "506772")
    || StartsWith(s, "506773") || StartsWith(s, "506774") || StartsWith(s, "506775")
    || StartsWith(s, "506776") || StartsWith(s, "506777") || StartsWith(s, "506778")
  }

  /** 5090 to 5099. */
  ghost predicate EloPrefix509(s: seq<char>) {
    || StartsWith(s, "5090") || StartsWith(s, "5091") || StartsWith(s, "5092")
    || StartsWith(s, "5093") || StartsWith(s, "5094") || StartsWith(s, "5095")
    || StartsWith(s, "5096") || StartsWith(s, "5097") || StartsWith(s, "5098")
    || StartsWith(s, "5099")
  }

  ghost predicate EloPrefixFrom6(s: seq<char>) {
    StartsWith(s, "627780") || StartsWith(s, "636297") || StartsWith(s, "636368")
  }

  /** The HIPER prefixes written out. */
  ghost predicate HiperPrefix(s: seq<char>) {
    StartsWith(s, "3841") || StartsWith(s, "606282")
  }

  /** A stem followed by one more character is a prefix one longer than the stem. */
  lemma StemThenDigitPrefix(s: seq<char>, stem: seq<char>)
    requires StartsWith(s, stem) && |stem| < |s|
    ensures s[..|stem| + 1] == stem + [s[|stem|]]
    ensures forall c :: StartsWith(s, stem + [c]) <==> s[|stem|] == c
  {
    assert s[..|stem| + 1] == s[..|stem|] + [s[|stem|]];
    forall c ensures StartsWith(s, stem + [c]) <==> s[|stem|] == c {
      if StartsWith(s, stem + [c]) {
        assert s[|stem|] == (stem + [c])[|stem|];
      }
    }
  }

  /** The rule `5067([0-6])` describes exactly the prefixes 50670 to 50676. */
  lemma Elo5067Rule(s: seq<char>)
    ensures MatchesRule(s, StemThenDigit("5067", '0', '6')) <==> EloPrefix5067(s)
  {
    if |s| > 4 && StartsWith(s, "5067") {
      StemThenDigitPrefix(s, "5067");
      assert "50670" == "5067" + ['0'] && "50671" == "5067" + ['1'] && "50672" == "5067" + ['2'];
      assert "50673" == "5067" + ['3'] && "50674" == "5067" + ['4'] && "50675" == "5067" + ['5'];
      assert "50676" == "5067" + ['6'];
    }
  }

  /** The rule `50677([0-8])` describes exactly the prefixes 506770 to 506778. */
  lemma Elo50677Rule(s: seq<char>)
    ensures MatchesRule(s, StemThenDigit("50677", '0', '8')) <==> EloPrefix50677(s)
  {
    if |s| > 5 && StartsWith(s, "50677") {
      StemThenDigitPrefix(s, "50677");
      assert "506770" == "50677" + ['0'] && "506771" == "50677" + ['1'] && "506772" == "50677" + ['2'];
      assert "506773" == "50677" + ['3'] && "506774" == "50677" + ['4'] && "506775" == "50677" + ['5'];
      assert "506776" == "50677" + ['6'] && "506777" == "50677" + ['7'] && "506778" == "50677" + ['8'];
    }
  }

  /** The rule `509[0-9]` describes exactly the prefixes 5090 to 5099. */
  lemma Elo509Rule(s: seq<char>)
    ensures MatchesRule(s, StemThenDigit("509", '0', '9')) <==> EloPrefix509(s)
  {
    if |s| > 3 && StartsWith(s, "509") {
      StemThenDigitPrefix(s, "509");
      assert "5090" == "509" + ['0'] && "5091" == "509" + ['1'] && "5092" == "509" + ['2'];
      assert "5093" == "509" + ['3'] && "5094" == "509" + ['4'] && "5095" == "509" + ['5'];
      assert "5096" == "509" + ['6'] && "5097" == "509" + ['7'] && "5098" == "509" + ['8'];
      assert "5099" == "509" + ['9'];
    }
  }

  /** Every ELO table rule describes one of the listed ELO prefixes. */
  lemma EloRuleGivesPrefix(s: seq<char>, i: nat)
    requires i < |EloRules| && MatchesRule(s, EloRules[i])
    ensures EloPrefix(s)
  {
    if i == 0 {
      StemThenDigitPrefix(s, "40117");
      assert EloPrefixFrom4(s);
    } else if i == 5 {
      StemThenDigitPrefix(s, "45763");
      assert EloPrefixFrom4(s);
    } else if i in {1, 2, 4, 11} {
      assert EloPrefixFrom4(s);
    } else if i in {6, 10} {
      assert EloPrefixFrom5(s);
    } else if i == 12 {
      Elo5067Rule(s);
      assert EloPrefixFrom5(s);
    } else if i == 13 {
      Elo50677Rule(s);
      assert EloPrefixFrom5(s);
    } else if i == 14 {
      Elo509Rule(s);
      assert EloPrefixFrom5(s);
    } else {
      assert EloPrefixFrom6(s);
    }
  }

  /** A number accepted by the i-th rule of a table is accepted by the table. */
  lemma RuleAccepts(s: seq<char>, rules: seq<PrefixRule>, i: nat)
    requires i < |rules| && MatchesRule(s, rules[i])
    ensures CheckNumberPatternValid(s, rules)
  {
  }

  /** Every listed ELO prefix starting with 4 is described by some ELO table rule. */
  lemma EloPrefixFrom4GivesRule(s: seq<char>)
    ensures EloPrefixFrom4(s) ==> CheckNumberPatternValid(s, EloRules)
  {
    if StartsWith(s, "401178") || StartsWith(s, "401179") {
      StemThenDigitPrefix(s, "40117");
      RuleAccepts(s, EloRules, 0);
    }
    if StartsWith(s, "431274") { RuleAccepts(s, EloRules, 1); }
    if StartsWith(s, "438935") { RuleAccepts(s, EloRules, 2); }
    if StartsWith(s, "451416") { RuleAccepts(s, EloRules, 4); }
    if StartsWith(s, "457631") || StartsWith(s, "457632") {
      StemThenDigitPrefix(s, "45763");
      RuleAccepts(s, EloRules, 5);
    }
    if StartsWith(s, "457393") { RuleAccepts(s, EloRules, 11); }
  }

  /** Every listed ELO prefix starting with 5 is described by some ELO table rule. */
  lemma EloPrefixFrom5GivesRule(s: seq<char>)
    ensures EloPrefixFrom5(s) ==> CheckNumberPatternValid(s, EloRules)
  {
    if StartsWith(s, "504175") { RuleAccepts(s, EloRules, 6); }
    if StartsWith(s, "506699") { RuleAccepts(s, EloRules, 10); }
    if EloPrefix5067(s) { Elo5067Rule(s); RuleAccepts(s, EloRules, 12); }
    if EloPrefix50677(s) { Elo50677Rule(s); RuleAccepts(s, EloRules, 13); }
    if EloPrefix509(s) { Elo509Rule(s); RuleAccepts(s, EloRules, 14); }
  }

  /** Every listed ELO prefix starting with 6 is described by some ELO table rule. */
  lemma EloPrefixFrom6GivesRule(s: seq<char>)
    ensures EloPrefixFrom6(s) ==> CheckNumberPatternValid(s, EloRules)
  {
    if StartsWith(s, "627780") { RuleAccepts(s, EloRules, 7); }
    if StartsWith(s, "636297") { RuleAccepts(s, EloRules, 3); }
    if StartsWith(s, "636368") { RuleAccepts(s, EloRules, 9); }
  }

  /** The ELO table accepts exactly the strings that start with a listed ELO prefix. */
  lemma EloCardIffPrefix(s: seq<char>)
    ensures CheckNumberPatternValid(s, EloRules) <==> EloPrefix(s)
  {
    if CheckNumberPatternValid(s, EloRules) {
      var i :| 0 <= i < |EloRules| && MatchesRule(s, EloRules[i]);
      EloRuleGivesPrefix(s, i);
    }
    EloPrefixFrom4GivesRule(s);
    EloPrefixFrom5GivesRule(s);
    EloPrefixFrom6GivesRule(s);
  }

  /** The HIPER table accepts exactly the strings that start with a listed HIPER prefix. */
  lemma HiperCardIffPrefix(s: seq<char>)
    ensures CheckNumberPatternValid(s, HiperRules) <==> HiperPrefix(s)
  {
  }

  /** A rule only looks at the first RuleLength characters. */
  lemma MatchesRuleExtend(s: seq<char>, t: seq<char>, rule: PrefixRule)
    requires MatchesRule(s, rule)
    ensures MatchesRule(s + t, rule)
  {
    match rule
    case Literal(text) =>
      assert (s + t)[..|text|] == s[..|text|];
    case StemThenDigit(stem, lo, hi) =>
      assert (s + t)[..|stem|] == s[..|stem|];
      assert (s + t)[|stem|] == s[|stem|];
  }

  /** Appending anything, digits or not, to a matching number keeps it matching. */
  lemma PatternMatchExtends(s: seq<char>, t: seq<char>, rules: seq<PrefixRule>)
    requires CheckNumberPatternValid(s, rules)
    ensures CheckNumberPatternValid(s + t, rules)
  {
    var i :| 0 <= i < |rules| && MatchesRule(s, rules[i]);
    MatchesRuleExtend(s, t, rules[i]);
  }

  /** A rule's verdict is decided by the first `n` characters when it inspects no more than `n`. */
  lemma MatchesRuleOnPrefix(s: seq<char>, rule: PrefixRule, n: nat)
    requires RuleLength(rule) <= n <= |s|
    ensures MatchesRule(s, rule) <==> MatchesRule(s[..n], rule)
  {
    match rule
    case Literal(text) =>
      assert s[..n][..|text|] == s[..|text|];
    case StemThenDigit(stem, lo, hi) =>
      assert s[..n][..|stem|] == s[..|stem|];
  }

  /**
    The verdict depends only on the leading `n` characters when no rule
    inspects more than `n`: every character after them is irrelevant.
  */
  lemma PatternDependsOnlyOnPrefix(s: seq<char>, rules: seq<PrefixRule>, n: nat)
    requires forall i :: 0 <= i < |rules| ==> RuleLength(rules[i]) <= n
    requires n <= |s|
    ensures CheckNumberPatternValid(s, rules) <==> CheckNumberPatternValid(s[..n], rules)
  {
    forall i | 0 <= i < |rules|
      ensures MatchesRule(s, rules[i]) <==> MatchesRule(s[..n], rules[i])
    {
      MatchesRuleOnPrefix(s, rules[i], n);
    }
  }

  /** The ELO verdict is decided by the first six characters of the number. */
  lemma EloDependsOnSixChars(s: seq<char>)
    requires |s| >= 6
    ensures IsValidEloCard(s) <==> IsValidEloCard(s[..6])
  {
    PatternDependsOnlyOnPrefix(s, EloRules, 6);
  }

  /** The HIPER verdict is decided by the first six characters of the number. */
  lemma HiperDependsOnSixChars(s: seq<char>)
    requires |s| >= 6
    ensures IsValidHiperCard(s) <==> IsValidHiperCard(s[..6])
  {
    PatternDependsOnlyOnPrefix(s, HiperRules, 6);
  }

  /** The brand length rules: ELO numbers have 16 digits, HIPER numbers 16 or 19. */
  lemma LengthRules(n: int)
    ensures IsValidEloLength(n) <==> n == 16
    ensures IsValidHiperLength(n) <==> n == 16 || n == 19
  {
  }

  /** Sample verdicts: known prefixes are recognised whatever follows them. */
  lemma KnownPrefixes(tail: seq<char>)
    ensures IsValidHiperCard("60628212345")
    ensures IsValidEloCard("401178" + tail)
    ensures IsValidHiperCard("3841" + tail)
  {
    assert MatchesRule("60628212345", HiperRules[1]);
    assert ("401178" + tail)[..5] == "40117";
    assert MatchesRule("401178" + tail, EloRules[0]);
    assert ("3841" + tail)[..4] == "3841";
    assert MatchesRule("3841" + tail, HiperRules[0]);
  }
}
