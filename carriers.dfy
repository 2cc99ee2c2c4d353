/** The carrier rule table, the plausibility filter applied to decoded text
    and the carrier classifier (`expressRules`, `IsLikelyExpressCode` and
    `IdentifyExpressCompany` of the recorder's main form). */
module Carriers {
  import opened Wrappers
  import opened Regex
  import opened Text

  // Carrier labels, the keys of the rule table.
  const ShunFeng: string := "顺丰"
  const ZhongTong: string := "中通"
  const YuanTong: string := "圆通"
  const ShenTong: string := "申通"
  const YunDa: string := "韵达"
  const JingDong: string := "京东"
  const YouZheng: string := "邮政"
  const JiTu: string := "极兔"
  /** The catch-all label. */
  const Other: string := "其他"

  datatype Rule = Rule(company: string, pattern: Pattern)

  /** `[0-9A-Z]` */
  const UpperOrDigit: CharClass := CharClass([('0', '9'), ('A', 'Z')])
  /** `[A-Za-z0-9]` */
  const Alphanumeric: CharClass := CharClass([('A', 'Z'), ('a', 'z'), ('0', '9')])

  /** `^SF\d{13}$` */
  const ShunFengPattern: Pattern := Anchored([Lit('S'), Lit('F')], Digit, 13, Finite(13))
  /** `^78\d{12}$` */
  const ZhongTongPattern: Pattern := Anchored([Lit('7'), Lit('8')], Digit, 12, Finite(12))
  /** `^YT\d{13}$` */
  const YuanTongPattern: Pattern := Anchored([Lit('Y'), Lit('T')], Digit, 13, Finite(13))
  /** `^77\d{13}$` */
  const ShenTongPattern: Pattern := Anchored([Lit('7'), Lit('7')], Digit, 13, Finite(13))
  /** `^[34]\d{14}$` */
  const YunDaPattern: Pattern := Anchored([CharClass([('3', '4')])], Digit, 14, Finite(14))
  /** `^JD[0-9A-Z]{11,13}$` */
  const JingDongPattern: Pattern := Anchored([Lit('J'), Lit('D')], UpperOrDigit, 11, Finite(13))
  /** `^9\d{12}$` */
  const YouZhengPattern: Pattern := Anchored([Lit('9')], Digit, 12, Finite(12))
  /** `^JT\d{13}$` */
  const JiTuPattern: Pattern := Anchored([Lit('J'), Lit('T')], Digit, 13, Finite(13))

  /** The rule table in its insertion order, which is the order the
      dictionary enumerates it in; the catch-all `.*` comes last. */
  const ExpressRules: seq<Rule> := [
    Rule(ShunFeng, ShunFengPattern),
    Rule(ZhongTong, ZhongTongPattern),
    Rule(YuanTong, YuanTongPattern),
    Rule(ShenTong, ShenTongPattern),
    Rule(YunDa, YunDaPattern),
    Rule(JingDong, JingDongPattern),
    Rule(YouZheng, YouZhengPattern),
    Rule(JiTu, JiTuPattern),
    Rule(Other, MatchAll)
  ]

  /** The labels of the table, in table order (the list offered by the
      confirmation dialog): one per rule, none twice, the catch-all last. */
  function Companies(): (r: seq<string>)
    ensures |r| == |ExpressRules| && forall i :: 0 <= i < |r| ==> r[i] == ExpressRules[i].company
    ensures forall i, j :: 0 <= i < j < |r| ==> r[i] != r[j]
    ensures r[|r| - 1] == Other
  {
    RuleTableWellFormed();
    seq(|ExpressRules|, i requires 0 <= i < |ExpressRules| => ExpressRules[i].company)
  }

  /** The table is a dictionary: no label occurs twice, and only the last
      rule is the catch-all. */
  lemma RuleTableWellFormed()
    ensures forall i, j :: 0 <= i < j < |ExpressRules| ==> ExpressRules[i].company != ExpressRules[j].company
    ensures ExpressRules[|ExpressRules| - 1] == Rule(Other, MatchAll)
  {
  }

  // ---------------------------------------------------------------------
  // Plausibility filter

  /** `^[A-Za-z0-9]+$` */
  const AlphanumericText: Pattern := Anchored([], Alphanumeric, 1, Unbounded)

  /** The classes written as ranges hold the characters one expects. */
  lemma DigitClass()
    ensures forall c :: InClass(c, Digit) <==> IsDigit(c)
  {
    forall c ensures InClass(c, Digit) <==> IsDigit(c) { SingleRange(c, '0', '9'); }
  }

  lemma LiteralClass(c: char, d: char)
    ensures InClass(c, Lit(d)) <==> c == d
  {
    SingleRange(c, d, d);
  }

  predicate IsAsciiAlphanumeric(c: char) {
    ('A' <= c <= 'Z') || ('a' <= c <= 'z') || ('0' <= c <= '9')
  }

  lemma AlphanumericClass()
    ensures forall c :: InClass(c, Alphanumeric) <==> IsAsciiAlphanumeric(c)
  {
    forall c ensures InClass(c, Alphanumeric) <==> IsAsciiAlphanumeric(c) {
      if 'A' <= c <= 'Z' { assert Alphanumeric.ranges[0].0 <= c <= Alphanumeric.ranges[0].1; }
      else if 'a' <= c <= 'z' { assert Alphanumeric.ranges[1].0 <= c <= Alphanumeric.ranges[1].1; }
      else if '0' <= c <= '9' { assert Alphanumeric.ranges[2].0 <= c <= Alphanumeric.ranges[2].1; }
    }
  }

  /** `IsLikelyExpressCode`: a length check, a character check, then eight
      carrier-format checks that each answer true, and a final true.  The
      carrier checks therefore never decide anything: the filter accepts
      exactly the ASCII-alphanumeric strings of length 10 to 20. */
  function IsLikelyExpressCode(code: string): (r: bool)
    ensures r <==> 10 <= |code| <= 20 && forall i :: 0 <= i < |code| ==> IsAsciiAlphanumeric(code[i])
  {
    AlphanumericClass();
    if |code| < 10 || |code| > 20 then false
    else if !IsMatch(AlphanumericText, code) then false
    else if IsMatch(ShunFengPattern, code) then true
    else if IsMatch(ZhongTongPattern, code) then true
    else if IsMatch(YuanTongPattern, code) then true
    else if IsMatch(ShenTongPattern, code) then true
    else if IsMatch(YunDaPattern, code) then true
    else if IsMatch(JingDongPattern, code) then true
    else if IsMatch(YouZhengPattern, code) then true
    else if IsMatch(JiTuPattern, code) then true
    else true
  }

  // ---------------------------------------------------------------------
  // Classifier

  /** Index of the first rule whose pattern matches `code`. */
  function FirstMatch(rules: seq<Rule>, code: string): (r: Option<nat>)
    ensures r.Some? ==> r.value < |rules| && Denotes(rules[r.value].pattern, code)
    ensures r.Some? ==> forall j :: 0 <= j < r.value ==> !Denotes(rules[j].pattern, code)
    ensures r.None? ==> forall j :: 0 <= j < |rules| ==> !Denotes(rules[j].pattern, code)
  {
    if rules == [] then None
    else if IsMatch(rules[0].pattern, code) then Some(0)
    else
      match FirstMatch(rules[1..], code)
      case None => None
      case Some(k) => Some(k + 1)
  }

  /** The `foreach` over the table that returns the key of the first
      matching rule, and the `return "其他"` after it. */
  function ScanRules(code: string): (r: string)
  {
    match FirstMatch(ExpressRules, code)
    case Some(i) => ExpressRules[i].company
    case None => Other
  }

  /** `^\d+$` */
  const DigitsText: Pattern := Anchored([], Digit, 1, Unbounded)

  /** The length-and-prefix checks made for an all-digit code before the
      table is scanned. */
  function PureDigitCompany(code: string): Option<string>
  {
    if |code| == 13 && StartsWith(code, "SF") then Some(ShunFeng)
    else if |code| == 14 && StartsWith(code, "78") then Some(ZhongTong)
    else if |code| == 13 && StartsWith(code, "YT") then Some(YuanTong)
    else if |code| == 15 && StartsWith(code, "77") then Some(ShenTong)
    else if |code| == 15 && (StartsWith(code, "3") || StartsWith(code, "4")) then Some(YunDa)
    else if |code| == 15 && StartsWith(code, "JD") then Some(JingDong)
    else if |code| == 13 && StartsWith(code, "9") then Some(YouZheng)
    else if |code| == 13 && StartsWith(code, "JT") then Some(JiTu)
    else None
  }

  /** `IdentifyExpressCompany`: the pure-digit pre-check, then the scan. */
  function IdentifyExpressCompany(code: string): (r: string)
  {
    if IsMatch(DigitsText, code) && PureDigitCompany(code).Some? then PureDigitCompany(code).value
    else ScanRules(code)
  }

  /** The pre-check branches that test for a letter prefix (`SF`, `YT`,
      `JD`, `JT`) can never be taken, since they are only reached for codes
      made of digits. */
  lemma LetterPrefixBranchesUnreachable(code: string)
    requires IsMatch(DigitsText, code)
    ensures PureDigitCompany(code) != Some(ShunFeng)
    ensures PureDigitCompany(code) != Some(YuanTong)
    ensures PureDigitCompany(code) != Some(JingDong)
    ensures PureDigitCompany(code) != Some(JiTu)
  {
    DigitClass();
    assert code[0] != 'S' && code[0] != 'Y' && code[0] != 'J';
  }

  /** The pre-check never changes the answer: the classifier returns what
      the table scan alone returns, for every input. */
  lemma PreCheckAgreesWithScan(code: string)
    ensures IdentifyExpressCompany(code) == ScanRules(code)
  {
    if IsMatch(DigitsText, code) && PureDigitCompany(code).Some? {
      LetterPrefixBranchesUnreachable(code);
      DigitClass();
      var c := PureDigitCompany(code).value;
      if c == ZhongTong {
        ZhongTongAgrees(code);
      } else if c == ShenTong {
        ShenTongAgrees(code);
      } else if c == YunDa {
        YunDaAgrees(code);
      } else {
        assert c == YouZheng;
        YouZhengAgrees(code);
      }
    }
  }

  /** The scan answers with rule `k` when it is the earliest match. */
  lemma ScanAnswers(code: string, k: nat)
    requires k < |ExpressRules| && Denotes(ExpressRules[k].pattern, code)
    requires forall j :: 0 <= j < k ==> !Denotes(ExpressRules[j].pattern, code)
    ensures ScanRules(code) == ExpressRules[k].company
  {
    var r := FirstMatch(ExpressRules, code);
    assert r.Some?;
    assert r.value == k;
  }

  /** An all-digit code matches none of the letter-prefixed patterns. */
  lemma DigitsMissLetterPatterns(code: string)
    requires IsMatch(DigitsText, code)
    ensures !Denotes(ShunFengPattern, code) && !Denotes(YuanTongPattern, code)
    ensures !Denotes(JingDongPattern, code) && !Denotes(JiTuPattern, code)
  {
    DigitClass();
    LiteralClass(code[0], 'S');
    LiteralClass(code[0], 'Y');
    LiteralClass(code[0], 'J');
  }

  lemma ZhongTongAgrees(code: string)
    requires IsMatch(DigitsText, code) && PureDigitCompany(code) == Some(ZhongTong)
    ensures ScanRules(code) == ZhongTong
  {
    DigitClass();
    DigitsMissLetterPatterns(code);
    assert code[..2] == "78";
    assert code[0] == '7' && code[1] == '8';
    LiteralClass(code[0], '7');
    LiteralClass(code[1], '8');
    assert Denotes(ZhongTongPattern, code);
    ScanAnswers(code, 1);
  }

  lemma ShenTongAgrees(code: string)
    requires IsMatch(DigitsText, code) && PureDigitCompany(code) == Some(ShenTong)
    ensures ScanRules(code) == ShenTong
  {
    DigitClass();
    DigitsMissLetterPatterns(code);
    assert code[..2] == "77";
    assert code[0] == '7' && code[1] == '7';
    LiteralClass(code[0], '7');
    LiteralClass(code[1], '7');
    assert !Denotes(ZhongTongPattern, code);
    assert Denotes(ShenTongPattern, code);
    ScanAnswers(code, 3);
  }

  lemma YunDaAgrees(code: string)
    requires IsMatch(DigitsText, code) && PureDigitCompany(code) == Some(YunDa)
    ensures ScanRules(code) == YunDa
  {
    DigitClass();
    DigitsMissLetterPatterns(code);
    assert code[..1] == "3" || code[..1] == "4";
    assert code[0] == '3' || code[0] == '4';
    SingleRange(code[0], '3', '4');
    LiteralClass(code[0], '7');
    assert !Denotes(ZhongTongPattern, code) && !Denotes(ShenTongPattern, code);
    assert Denotes(YunDaPattern, code);
    ScanAnswers(code, 4);
  }

  lemma YouZhengAgrees(code: string)
    requires IsMatch(DigitsText, code) && PureDigitCompany(code) == Some(YouZheng)
    ensures ScanRules(code) == YouZheng
  {
    DigitClass();
    DigitsMissLetterPatterns(code);
    assert |code| == 13;
    assert code[..1] == "9";
    assert code[0] == '9';
    LiteralClass(code[0], '9');
    SingleRange(code[0], '3', '4');
    assert !Denotes(ZhongTongPattern, code) && !Denotes(ShenTongPattern, code);
    assert !Denotes(YunDaPattern, code);
    assert Denotes(YouZhengPattern, code);
    ScanAnswers(code, 6);
  }

  /** The classifier always answers with a key of the table: the key of the
      earliest rule in table order whose pattern matches the code. */
  lemma IdentifyIsFirstMatch(code: string)
    ensures exists i ::
              && 0 <= i < |ExpressRules|
              && IdentifyExpressCompany(code) == ExpressRules[i].company
              && Denotes(ExpressRules[i].pattern, code)
              && (forall j :: 0 <= j < i ==> !Denotes(ExpressRules[j].pattern, code))
    ensures IdentifyExpressCompany(code) in Companies()
  {
    PreCheckAgreesWithScan(code);
    assert Denotes(ExpressRules[|ExpressRules| - 1].pattern, code);
    var i := FirstMatch(ExpressRules, code).value;
    assert Companies()[i] == ExpressRules[i].company;
  }

  /** A rule that matches wins exactly when no earlier rule matches. */
  lemma EarliestMatchingRuleWins(code: string, i: nat)
    requires i < |ExpressRules| && Denotes(ExpressRules[i].pattern, code)
    ensures IdentifyExpressCompany(code) == ExpressRules[i].company
            <==> forall j :: 0 <= j < i ==> !Denotes(ExpressRules[j].pattern, code)
  {
    PreCheckAgreesWithScan(code);
    RuleTableWellFormed();
    var k := FirstMatch(ExpressRules, code).value;
    assert k <= i;
  }

  /** The leading characters each carrier pattern demands:
      `SF`, `78`, `YT`, `77`, `3` or `4`, `JD`, `9`, `JT`. */
  predicate HeadFits(j: nat, c0: char, c1: char) {
    match j
    case 0 => c0 == 'S' && c1 == 'F'
    case 1 => c0 == '7' && c1 == '8'
    case 2 => c0 == 'Y' && c1 == 'T'
    case 3 => c0 == '7' && c1 == '7'
    case 4 => c0 == '3' || c0 == '4'
    case 5 => c0 == 'J' && c1 == 'D'
    case 6 => c0 == '9'
    case 7 => c0 == 'J' && c1 == 'T'
    case _ => true
  }

  /** A code matching carrier rule `j` starts the way that rule demands. */
  lemma MatchFixesHead(code: string, j: nat)
    requires j < |ExpressRules| - 1
    ensures Denotes(ExpressRules[j].pattern, code) ==> |code| >= 2 && HeadFits(j, code[0], code[1])
  {
    if Denotes(ExpressRules[j].pattern, code) {
      var p := ExpressRules[j].pattern;
      assert |p.prefix| >= 1 && p.minCount >= 11;
      assert InClass(code[0], p.prefix[0]);
      if j == 4 {
        SingleRange(code[0], '3', '4');
      } else if j == 6 {
        LiteralClass(code[0], '9');
      } else {
        assert InClass(code[1], p.prefix[1]);
        LiteralClass(code[0], p.prefix[0].ranges[0].0);
        LiteralClass(code[1], p.prefix[1].ranges[0].0);
      }
    }
  }

  /** Whichever of the eight carrier patterns a code matches decides its
      carrier: no earlier carrier pattern of the table can match it too. */
  lemma CarrierPatternWins(code: string, i: nat)
    requires i < |ExpressRules| - 1 && Denotes(ExpressRules[i].pattern, code)
    ensures IdentifyExpressCompany(code) == ExpressRules[i].company
  {
    MatchFixesHead(code, i);
    forall j | 0 <= j < i ensures !Denotes(ExpressRules[j].pattern, code) {
      MatchFixesHead(code, j);
    }
    EarliestMatchingRuleWins(code, i);
  }

  /** The eight carrier patterns are pairwise disjoint. */
  lemma CarrierPatternsDisjoint(code: string, i: nat, j: nat)
    requires i < |ExpressRules| - 1 && j < |ExpressRules| - 1
    ensures Denotes(ExpressRules[i].pattern, code) && Denotes(ExpressRules[j].pattern, code) ==> i == j
  {
    MatchFixesHead(code, i);
    MatchFixesHead(code, j);
  }

  /** The catch-all label is returned exactly when none of the eight carrier
      patterns matches. */
  lemma OtherOnlyWhenNoCarrierMatches(code: string)
    ensures IdentifyExpressCompany(code) == Other
            <==> forall j :: 0 <= j < |ExpressRules| - 1 ==> !Denotes(ExpressRules[j].pattern, code)
  {
    PreCheckAgreesWithScan(code);
    RuleTableWellFormed();
    assert Denotes(ExpressRules[|ExpressRules| - 1].pattern, code);
  }

  lemma ExampleShunFeng()
    ensures IdentifyExpressCompany("SF1234567890123") == ShunFeng
  {
    var code := "SF1234567890123";
    DigitClass();
    LiteralClass(code[0], 'S');
    LiteralClass(code[1], 'F');
    assert Denotes(ShunFengPattern, code);
    EarliestMatchingRuleWins(code, 0);
  }

  lemma ExampleYouZheng()
    ensures IdentifyExpressCompany("9123456789012") == YouZheng
  {
    var code := "9123456789012";
    DigitClass();
    assert Denotes(DigitsText, code);
    assert code[..1] == "9" && code[..2] == "91";
    assert PureDigitCompany(code) == Some(YouZheng);
  }

  lemma ExampleTooShort()
    ensures !IsLikelyExpressCode("random123")
  {
  }
}
