/** What the assistant's rule table guarantees about its replies. */
module ChatbotFacts {
  import opened Text
  import opened Wrappers
  import opened Patterns
  import opened Chatbot

  // ---------------------------------------------------------------------
  // Order of the table

  /** The rule that answers matched, and no rule before it did. */
  lemma FirstMatchFacts(s: string, k: nat, j: nat)
    requires j < k < RuleCount
    ensures FirstMatch(s, 0) == Some(k) ==> AnyMatches(s, Question(k)) && !AnyMatches(s, Question(j))
  {
  }

  lemma Excluded(s: string, k: nat, j: nat)
    requires k < RuleCount && FirstMatch(s, 0) == Some(k) && j < k
    ensures !AnyMatches(s, Question(j))
  {
  }

  lemma Answered(s: string, k: nat)
    requires k < RuleCount && FirstMatch(s, 0) == Some(k)
    ensures AnyMatches(s, Question(k))
  {
  }

  lemma Replies(s: string, k: nat)
    requires k < RuleCount && FirstMatch(s, 0) == Some(k)
    ensures DemoAiResponse(s) == RuleReply(k, s)
  {
  }

  /** A message containing the literal of a one-literal alternative of rule
      `k` is answered by rule `k` or by an earlier one. */
  lemma AnsweredByOrBefore(s: string, k: nat, a: nat, lit: string)
    requires k < RuleCount && a < |Question(k)| && Question(k)[a] == [lit]
    requires Contains(s, lit)
    ensures FirstMatch(s, 0).Some? && FirstMatch(s, 0).value <= k
  {
    SingleLiteral(s, lit);
    assert AltMatches(s, Question(k)[a]);
  }

  /** Every message that mentions a funeral gets a table answer, never the
      password hint or the default reply. */
  lemma FuneralAlwaysAnswered(s: string)
    requires Contains(s, "funeral")
    ensures FirstMatch(s, 0).Some? && FirstMatch(s, 0).value <= 52
  {
    AnsweredByOrBefore(s, 52, 0, "funeral");
  }

  /** A message containing `hi` (as in "this" or "which") is answered by the
      greeting rule or an earlier one, never by the help or thanks rules. */
  lemma HiShadowsThanks(s: string)
    requires Contains(s, "hi")
    ensures FirstMatch(s, 0).Some? && FirstMatch(s, 0).value <= 53
  {
    AnsweredByOrBefore(s, 53, 1, "hi");
  }

  /** The support rule's last alternative is `customer service` alone. */
  lemma SupportRuleListsCustomerService()
    ensures 3 < |Question(38)| && Question(38)[3] == ["customer service"]
  {
  }

  /** `customer service` always reaches the support rule or an earlier one. */
  lemma CustomerServiceGoesToSupport(s: string)
    requires Contains(s, "customer service")
    ensures FirstMatch(s, 0).Some? && FirstMatch(s, 0).value <= 38
  {
    SupportRuleListsCustomerService();
    AnsweredByOrBefore(s, 38, 3, "customer service");
  }

  // ---------------------------------------------------------------------
  // Alternatives that can never decide

  /** The cremation-and-burial rule's first alternatives: `cremat` and
      `burial`, each alone. */
  lemma CremationBurialRow()
    ensures |Question(15)| > 1 && Question(15)[0] == ["cremat"] && Question(15)[1] == ["burial"]
  {
  }

  /** Each alternative of the cremation-process rule has a `cremation` part. */
  lemma CremationProcessRow()
    ensures var q := Question(16);
      |q| == 3 && |q[0]| > 0 && q[0][0] == "cremation" && |q[1]| > 1 && q[1][1] == "cremation"
      && |q[2]| > 0 && q[2][0] == "cremation"
  {
  }

  /** A pattern whose every alternative needs `cremation` matches only
      messages that a `cremat` alternative matches too. */
  lemma CremationImpliesCremat(s: string, q: Pattern, c: Pattern)
    requires |q| == 3 && |q[0]| > 0 && q[0][0] == "cremation" && |q[1]| > 1 && q[1][1] == "cremation"
    requires |q[2]| > 0 && q[2][0] == "cremation"
    requires |c| > 0 && c[0] == ["cremat"]
    ensures AnyMatches(s, q) ==> AnyMatches(s, c)
  {
    assert "cremation"[0..6] == "cremat";
    forall a | 0 <= a < 3 ensures AltMatches(s, q[a]) ==> Contains(s, "cremat") {
      if AltMatches(s, q[a]) {
        AltNeedsEveryPart(s, q[a], if a == 1 then 1 else 0);
        ContainsSubLiteral(s, "cremation", "cremat", 0);
      }
    }
    SingleLiteral(s, "cremat");
    assert Contains(s, "cremat") ==> AltMatches(s, c[0]);
  }

  /** The cremation-process rule never answers: each of its alternatives
      contains `cremation`, so the cremation-and-burial rule before it
      (`cremat`) always matches first. */
  lemma CremationProcessNeverAnswers(s: string)
    ensures FirstMatch(s, 0) != Some(16)
  {
    FirstMatchFacts(s, 16, 15);
    CremationBurialRow();
    CremationProcessRow();
    CremationImpliesCremat(s, Question(16), Question(15));
  }

  /** The hotline rule's alternatives other than `hotline` start with
      `emergency` or `urgent`. */
  lemma HotlineRow()
    ensures var q := Question(41);
      |q| == 3 && |q[0]| > 0 && q[0][0] == "emergency" && q[1] == ["hotline"] && |q[2]| > 0 && q[2][0] == "urgent"
  {
  }

  /** The emergency rule's first alternatives: `emergency` and `urgent`. */
  lemma EmergencyRow()
    ensures |Question(27)| > 1 && Question(27)[0] == ["emergency"] && Question(27)[1] == ["urgent"]
  {
  }

  /** Of the hotline alternatives, only `hotline` survives a pattern that
      rules out `emergency` and `urgent`. */
  lemma HotlineAlternatives(s: string, q: Pattern, e: Pattern)
    requires |q| == 3 && |q[0]| > 0 && q[0][0] == "emergency" && q[1] == ["hotline"] && |q[2]| > 0 && q[2][0] == "urgent"
    requires |e| > 1 && e[0] == ["emergency"] && e[1] == ["urgent"]
    requires !AnyMatches(s, e) && AnyMatches(s, q)
    ensures Contains(s, "hotline")
  {
    LiteralAbsent(s, e, 0, "emergency");
    LiteralAbsent(s, e, 1, "urgent");
    AltFailsWithoutPart(s, q[0], 0);
    AltFailsWithoutPart(s, q[2], 0);
    PickAlternative(s, q, 1);
    SingleLiteral(s, "hotline");
  }

  /** The hotline rule answers only messages that say `hotline`: its other
      alternatives need `emergency` or `urgent`, which the emergency rule
      catches first. */
  lemma HotlineRuleNeedsHotline(s: string)
    requires FirstMatch(s, 0) == Some(41)
    ensures Contains(s, "hotline")
  {
    Excluded(s, 41, 27);
    Answered(s, 41);
    HotlineRow();
    EmergencyRow();
    HotlineAlternatives(s, Question(41), Question(27));
  }

  /** The burial-process rule's alternatives other than `cemetery` and
      `grave` need `burial`. */
  lemma BurialProcessRow()
    ensures var q := Question(17);
      |q| == 4 && |q[0]| > 0 && q[0][0] == "burial" && |q[1]| > 1 && q[1][1] == "burial"
      && q[2] == ["cemetery"] && q[3] == ["grave"]
  {
  }

  /** Of the burial-process alternatives, only `cemetery` and `grave`
      survive a pattern that rules out `burial`. */
  lemma BurialAlternatives(s: string, q: Pattern, e: Pattern)
    requires |q| == 4 && |q[0]| > 0 && q[0][0] == "burial" && |q[1]| > 1 && q[1][1] == "burial"
    requires q[2] == ["cemetery"] && q[3] == ["grave"]
    requires |e| > 1 && e[1] == ["burial"]
    requires !AnyMatches(s, e) && AnyMatches(s, q)
    ensures Contains(s, "cemetery") || Contains(s, "grave")
  {
    LiteralAbsent(s, e, 1, "burial");
    AltFailsWithoutPart(s, q[0], 0);
    AltFailsWithoutPart(s, q[1], 1);
    SingleLiteral(s, "cemetery");
    SingleLiteral(s, "grave");
  }

  /** The burial-process rule answers only messages about a cemetery or a
      grave: its other alternatives need `burial`, caught two rules earlier. */
  lemma BurialRuleNeedsCemeteryOrGrave(s: string)
    requires FirstMatch(s, 0) == Some(17)
    ensures Contains(s, "cemetery") || Contains(s, "grave")
  {
    Excluded(s, 17, 15);
    Answered(s, 17);
    BurialProcessRow();
    CremationBurialRow();
    BurialAlternatives(s, Question(17), Question(15));
  }

  lemma CustomerServiceAbsent(s: string)
    requires !AnyMatches(s, Question(38))
    ensures !Contains(s, "customer service")
  {
    SupportRuleListsCustomerService();
    LiteralAbsent(s, Question(38), 3, "customer service");
  }

  /** The two Tagalog rules after the support rule also list `customer
      service`, but answer only messages without it, that is, only their
      Tagalog phrases. */
  lemma TagalogRulesWithoutCustomerService(s: string, k: nat)
    requires k == 39 || k == 40
    requires FirstMatch(s, 0) == Some(k)
    ensures !Contains(s, "customer service")
  {
    Excluded(s, k, 38);
    CustomerServiceAbsent(s);
  }

  lemma FacilitiesAbsent(s: string)
    requires !AnyMatches(s, Question(46))
    ensures !Contains(s, "facilities")
  {
    assert Question(46)[0] == ["facilities"];
    LiteralAbsent(s, Question(46), 0, "facilities");
  }

  /** The accessibility rule never answers `facilities`: the facilities
      rule before it has that alternative too. */
  lemma AccessibilityRuleWithoutFacilities(s: string)
    requires FirstMatch(s, 0) == Some(47)
    ensures !Contains(s, "facilities")
  {
    Excluded(s, 47, 46);
    FacilitiesAbsent(s);
  }

  // ---------------------------------------------------------------------
  // The price rule

  lemma PackageNames()
    ensures |Packages()| == 10
    ensures forall x :: 0 <= x < 10 ==> Packages()[x].name == "Package " + [('A' as int + x) as char]
  {
  }

  lemma LowerPackageName(c: char)
    requires 'A' <= c <= 'Z'
    ensures Lower("Package " + [c]) == "package " + [LowerChar(c)]
  {
    var n := "Package " + [c];
    assert Lower(n)[0] == LowerChar('P') == 'p';
  }

  /** The lowered catalog names are `package a` to `package j`, in order. */
  lemma PackageNamesLowered()
    ensures |Packages()| == 10
    ensures forall x :: 0 <= x < 10 ==> Lower(Packages()[x].name) == PackageKey(x)
  {
    PackageNames();
    forall x | 0 <= x < 10 ensures Lower(Packages()[x].name) == PackageKey(x) {
      LowerPackageName(('A' as int + x) as char);
    }
  }

  /** A name equal up to case to `package x` finds the `x`-th package. */
  lemma FindByKey(g: string, x: nat)
    requires x < 10 && Lower(g) == PackageKey(x)
    ensures FindPackage(Packages(), g) == Some(x)
  {
    PackageNamesLowered();
    forall k | 0 <= k < 10 && k != x ensures Lower(Packages()[k].name) != Lower(g) {
      assert PackageKey(k)[8] != PackageKey(x)[8];
    }
    FindUnique(Packages(), g, x);
  }

  lemma FindUnique(ps: seq<PackagePrice>, name: string, x: nat)
    requires x < |ps| && Lower(ps[x].name) == Lower(name)
    requires forall k :: 0 <= k < |ps| && k != x ==> Lower(ps[k].name) != Lower(name)
    ensures FindPackage(ps, name) == Some(x)
  {
  }

  /** Each alternative of the price question ends with a package key. */
  lemma PriceAlternative(a: nat)
    requires a < 20
    ensures |PriceQuestion()| == 20 && |PriceQuestion()[a]| == 1
    ensures |PriceQuestion()[a][0]| >= GroupLength && Suffix(PriceQuestion()[a][0], GroupLength) == PackageKey(a % 10)
  {
  }

  /** The price question's capture is, up to case, the key of the `x`-th
      catalog package, and the message contains that key. */
  lemma CaptureIsKey(s: string) returns (x: nat)
    requires AnyMatches(s, PriceQuestion())
    ensures x < 10 && Lower(Capture(s).value) == PackageKey(x) && Contains(s, PackageKey(x))
  {
    PriceQuestionPlain();
    MatchedSuffix(s, PriceQuestion(), GroupLength);
    var a :| 0 <= a < |PriceQuestion()| && Lower(Suffix(MatchedText(s, PriceQuestion()).value, GroupLength)) == Suffix(PriceQuestion()[a][0], GroupLength)
             && Contains(s, Suffix(PriceQuestion()[a][0], GroupLength));
    PriceAlternative(a);
    x := a % 10;
  }

  /** The price question always names a catalog package, the message
      contains that package's name, and the reply quotes its price. */
  lemma CaptureNamesPackage(s: string) returns (p: PackagePrice)
    requires AnyMatches(s, PriceQuestion())
    ensures p in Packages() && PriceReply(Capture(s).value) == PriceSentence(p) && Contains(s, Lower(p.name))
  {
    var x := CaptureIsKey(s);
    FindByKey(Capture(s).value, x);
    PackageNamesLowered();
    p := Packages()[x];
  }

  /** No price sentence is the not-found reply: one ends in a question, the
      other does not. */
  lemma PriceSentenceFound(p: PackagePrice)
    ensures PriceSentence(p) != PackageNotFound
  {
    assert PriceSentence(p)[|PriceSentence(p)| - 1] == '?';
    assert PackageNotFound[|PackageNotFound| - 1] == '.';
  }

  /** The price rule asks the price question and answers with a price. */
  lemma PriceRow()
    ensures Question(PriceRule) == PriceQuestion() && AnswerOf(PriceRule) == PriceOfPackage
  {
  }

  /** The price rule, once its question matched, quotes the captured package. */
  lemma PriceRuleAnswer(s: string)
    requires AnyMatches(s, PriceQuestion())
    ensures RuleReply(PriceRule, s) == PriceReply(Capture(s).value)
  {
    PriceRow();
  }

  /** The price rule's reply in terms of the capture. */
  lemma PriceRuleReply(s: string)
    requires FirstMatch(s, 0) == Some(PriceRule)
    ensures AnyMatches(s, PriceQuestion()) && DemoAiResponse(s) == PriceReply(Capture(s).value)
  {
    Answered(s, PriceRule);
    Replies(s, PriceRule);
    PriceRow();
    PriceRuleAnswer(s);
  }

  /** When the price rule answers, it quotes the price of a catalog package
      that the message names, so its not-found reply is never given. */
  lemma PriceRuleQuotesNamedPackage(s: string) returns (p: PackagePrice)
    requires FirstMatch(s, 0) == Some(PriceRule)
    ensures p in Packages() && DemoAiResponse(s) == PriceSentence(p) && Contains(s, Lower(p.name))
    ensures DemoAiResponse(s) != PackageNotFound
  {
    PriceRuleReply(s);
    p := CaptureNamesPackage(s);
    PriceSentenceFound(p);
  }

  // ---------------------------------------------------------------------
  // The listing answers

  /** No catalog line breaks a line. */
  lemma PackageLinesSingle()
    ensures NoSeparator(PackageLines(Packages()), '\n')
  {
    var ps := Packages();
    forall k | 0 <= k < |ps|
      ensures '\n' !in PackageLine(ps[k])
    {
      EntrySingle(k);
      LineSingle(ps[k]);
    }
  }

  lemma EntrySingle(x: nat)
    requires x < 10
    ensures '\n' !in Packages()[x].name && '\n' !in Packages()[x].price
  {
    var p := Packages()[x];
    if x == 0 { assert p == PackagePrice("Package A", "₱30,000"); }
    else if x == 1 { assert p == PackagePrice("Package B", "₱40,000"); }
    else if x == 2 { assert p == PackagePrice("Package C", "₱50,000"); }
    else if x == 3 { assert p == PackagePrice("Package D", "₱60,000"); }
    else if x == 4 { assert p == PackagePrice("Package E", "₱70,000"); }
    else if x == 5 { assert p == PackagePrice("Package F", "₱80,000"); }
    else if x == 6 { assert p == PackagePrice("Package G", "₱90,000"); }
    else if x == 7 { assert p == PackagePrice("Package H", "₱100,000"); }
    else if x == 8 { assert p == PackagePrice("Package I", "₱120,000"); }
    else { assert p == PackagePrice("Package J", "₱250,000"); }
  }

  /** A package line breaks no line when neither name nor price does. */
  lemma LineSingle(p: PackagePrice)
    requires '\n' !in p.name && '\n' !in p.price
    ensures '\n' !in PackageLine(p)
  {
  }

  /** A listing splits back into its header, one line per catalog package in
      catalog order, and its footer. */
  lemma ListingLines(header: string, footer: string)
    requires '\n' !in header && '\n' !in footer
    ensures Split(Listing(header, footer), '\n') == [header] + PackageLines(Packages()) + [footer]
  {
    PackageLinesSingle();
    SplitFramed(header, PackageLines(Packages()), footer, '\n');
  }

  /** Rules 0 and 1 are the two package-count rules, each listing the
      catalog between its own header and footer. */
  lemma ListingRows(k: nat)
    requires k < 2
    ensures AnswerOf(k) == PackageList(ListingHeader(k), ListingFooter(k))
  {
    if k == 0 {
      assert AnswerOf(0) == PackageList(ListingHeader(0), ListingFooter(0));
    } else {
      assert AnswerOf(1) == PackageList(ListingHeader(1), ListingFooter(1));
    }
  }

  /** A listing rule's reply is its listing. */
  lemma ListingReply(k: nat, s: string)
    requires k < RuleCount && AnswerOf(k).PackageList?
    ensures RuleReply(k, s) == Listing(AnswerOf(k).header, AnswerOf(k).footer)
  {
  }

  /** The two package-count rules answer with the catalog listing: their
      header line, then every package with its price on a line of its own in
      catalog order, then their footer line. */
  lemma PackageCountRulesList(k: nat, s: string)
    requires k < 2
    ensures Split(RuleReply(k, s), '\n') == [ListingHeader(k)] + PackageLines(Packages()) + [ListingFooter(k)]
  {
    ListingRows(k);
    ListingReply(k, s);
    ListingLines(ListingHeader(k), ListingFooter(k));
  }
}
