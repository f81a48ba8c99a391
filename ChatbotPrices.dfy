/** The three rules that answer price questions, in table order: the two
    package-count rules, the price-range rule and the price lookup. Which
    of them answers a question about the price of one package depends on
    how it is worded. */
module ChatbotPrices {
  import opened Text
  import opened Wrappers
  import opened Patterns
  import opened Chatbot
  import opened ChatbotFacts

  // ---------------------------------------------------------------------
  // The rows, a few alternatives at a time

  /** The alternatives of the package-count rule each spell `packages`. */
  lemma CountRowA()
    ensures |Question(0)| == 6
    ensures PartHas(Question(0)[0], 0, 9, "packages") && PartHas(Question(0)[1], 0, 9, "packages")
  {
  }

  lemma CountRowB()
    ensures |Question(0)| == 6
    ensures PartHas(Question(0)[2], 0, 17, "packages") && PartHas(Question(0)[3], 0, 17, "packages")
  {
  }

  lemma CountRowC()
    ensures |Question(0)| == 6
    ensures PartHas(Question(0)[4], 0, 10, "packages") && PartHas(Question(0)[5], 0, 8, "packages")
  {
  }

  /** The alternatives of the package-list rule each spell `packages`. */
  lemma ListRowA()
    ensures |Question(1)| == 8
    ensures PartHas(Question(1)[0], 0, 9, "packages") && PartHas(Question(1)[1], 0, 13, "packages")
  {
  }

  lemma ListRowB()
    ensures |Question(1)| == 8
    ensures PartHas(Question(1)[2], 0, 8, "packages") && PartHas(Question(1)[3], 0, 12, "packages")
  {
  }

  lemma ListRowC()
    ensures |Question(1)| == 8
    ensures PartHas(Question(1)[4], 0, 18, "packages") && PartHas(Question(1)[5], 0, 22, "packages")
  {
  }

  lemma ListRowD()
    ensures |Question(1)| == 8
    ensures PartHas(Question(1)[6], 1, 0, "packages") && PartHas(Question(1)[7], 1, 0, "packages")
  {
  }

  /** The price-range rule: `how much.*(package|cost|price)`,
      `price.*package`, `package.*price` and `cost.*funeral`. */
  lemma RangeRow()
    ensures Question(2) == [["how much", "package"], ["how much", "cost"], ["how much", "price"],
                            ["price", "package"], ["package", "price"], ["cost", "funeral"]]
  {
  }

  // ---------------------------------------------------------------------
  // When the rules before the lookup stay silent

  /** Without `packages` neither the count rule nor the list rule matches. */
  lemma CountRulesNeedPackages(s: string)
    requires !Contains(s, "packages")
    ensures !AnyMatches(s, Question(0)) && !AnyMatches(s, Question(1))
  {
    CountRowA();
    CountRowB();
    CountRowC();
    AltNeedsLiteral(s, Question(0)[0], 0, 9, "packages");
    AltNeedsLiteral(s, Question(0)[1], 0, 9, "packages");
    AltNeedsLiteral(s, Question(0)[2], 0, 17, "packages");
    AltNeedsLiteral(s, Question(0)[3], 0, 17, "packages");
    AltNeedsLiteral(s, Question(0)[4], 0, 10, "packages");
    AltNeedsLiteral(s, Question(0)[5], 0, 8, "packages");
    ListRulesNeedPackages(s);
  }

  lemma ListRulesNeedPackages(s: string)
    requires !Contains(s, "packages")
    ensures !AnyMatches(s, Question(1))
  {
    ListRowA();
    ListRowB();
    ListRowC();
    ListRowD();
    AltNeedsLiteral(s, Question(1)[0], 0, 9, "packages");
    AltNeedsLiteral(s, Question(1)[1], 0, 13, "packages");
    AltNeedsLiteral(s, Question(1)[2], 0, 8, "packages");
    AltNeedsLiteral(s, Question(1)[3], 0, 12, "packages");
    AltNeedsLiteral(s, Question(1)[4], 0, 18, "packages");
    AltNeedsLiteral(s, Question(1)[5], 0, 22, "packages");
    AltNeedsLiteral(s, Question(1)[6], 1, 0, "packages");
    AltNeedsLiteral(s, Question(1)[7], 1, 0, "packages");
  }

  /** Without `how much`, `price` and `funeral` the range rule is silent. */
  lemma RangeRuleSilent(s: string)
    requires !Contains(s, "how much") && !Contains(s, "price") && !Contains(s, "funeral")
    ensures !AnyMatches(s, Question(2))
  {
    RangeRow();
    var q := Question(2);
    AltFailsWithoutPart(s, q[0], 0);
    AltFailsWithoutPart(s, q[1], 0);
    AltFailsWithoutPart(s, q[2], 0);
    AltFailsWithoutPart(s, q[3], 0);
    AltFailsWithoutPart(s, q[4], 1);
    AltFailsWithoutPart(s, q[5], 1);
  }

  // ---------------------------------------------------------------------
  // Which rule answers

  /** `price of package …` always matches `price.*package`, so the range
      rule or an earlier one answers, and the lookup never does. */
  lemma PriceOfIsRange(s: string)
    requires Contains(s, "price of package")
    ensures FirstMatch(s, 0).Some? && FirstMatch(s, 0).value <= 2
  {
    var i: nat :| i <= |s| && LitAt(s, "price of package", i);
    assert "price of package" == "price" + " of " + "package";
    GapOnOneLine(s, "price", " of ", "package", i);
    RangeRow();
    assert AltMatches(s, Question(2)[3]);
  }

  /** Asked without `packages`, `price of package …` gets the price-range
      reply. */
  lemma PriceOfGetsRange(s: string)
    requires Contains(s, "price of package") && !Contains(s, "packages")
    ensures FirstMatch(s, 0) == Some(2) && DemoAiResponse(s) == RuleReply(2, s)
  {
    PriceOfIsRange(s);
    CountRulesNeedPackages(s);
    Replies(s, 2);
  }

  /** The lookup alternative for `cost of package x`. */
  lemma CostAlternative(x: nat)
    requires x < 10
    ensures 10 + x < |PriceQuestion()| && PriceQuestion()[10 + x] == ["cost of " + PackageKey(x)]
  {
    assert ("cost of " + "package ") + [('a' as int + x) as char] == "cost of " + PackageKey(x);
  }

  /** A message that asks `cost of package x` and says none of `packages`,
      `how much`, `price` or `funeral` reaches the lookup rule. */
  lemma CostOfReachesLookup(s: string, x: nat)
    requires x < 10 && Contains(s, "cost of " + PackageKey(x))
    requires !Contains(s, "packages") && !Contains(s, "how much")
    requires !Contains(s, "price") && !Contains(s, "funeral")
    ensures FirstMatch(s, 0) == Some(PriceRule)
  {
    CountRulesNeedPackages(s);
    RangeRuleSilent(s);
    CostAlternative(x);
    SingleLiteral(s, "cost of " + PackageKey(x));
    PriceRow();
    assert AnyMatches(s, Question(PriceRule));
  }

  /** Such a message that names no other package is answered with the
      price of package x. */
  lemma CostOfQuotesPackage(s: string, x: nat)
    requires x < 10 && Contains(s, "cost of " + PackageKey(x))
    requires forall y :: 0 <= y < 10 && y != x ==> !Contains(s, PackageKey(y))
    requires !Contains(s, "packages") && !Contains(s, "how much")
    requires !Contains(s, "price") && !Contains(s, "funeral")
    ensures DemoAiResponse(s) == PriceSentence(Packages()[x])
  {
    CostOfReachesLookup(s, x);
    PriceRuleReply(s);
    var y := CaptureIsKey(s);
    FindByKey(Capture(s).value, y);
  }

  /** The adjacent letter pairs of `cost of package c`. */
  function CostOfCPairs(): set<(char, char)> {
    {('c', 'o'), ('o', 's'), ('s', 't'), ('t', ' '), (' ', 'o'), ('o', 'f'), ('f', ' '), (' ', 'p'),
     ('p', 'a'), ('a', 'c'), ('c', 'k'), ('k', 'a'), ('a', 'g'), ('g', 'e'), ('e', ' '), (' ', 'c')}
  }

  /** "cost of package c" asks for package c and names no other. */
  lemma CostOfCAsks(s: string)
    requires s == "cost of package c"
    ensures Contains(s, "cost of " + PackageKey(2))
    ensures forall y :: 0 <= y < 10 && y != 2 ==> !Contains(s, PackageKey(y))
  {
    assert LitAt(s, "cost of " + PackageKey(2), 0) by {
      LitAtIff(s, "cost of " + PackageKey(2), 0, 0);
    }
    var pairs := CostOfCPairs();
    assert PairsWithin(s, pairs);
    forall y | 0 <= y < 10 && y != 2
      ensures !Contains(s, PackageKey(y))
    {
      AbsentByPair(s, pairs, PackageKey(y), 7);
    }
  }

  /** "cost of package c" says none of the words of the earlier rules. */
  lemma CostOfCAvoids(s: string)
    requires s == "cost of package c"
    ensures !Contains(s, "packages") && !Contains(s, "how much")
    ensures !Contains(s, "price") && !Contains(s, "funeral")
  {
    var pairs := CostOfCPairs();
    assert PairsWithin(s, pairs);
    AbsentByPair(s, pairs, "packages", 6);
    AbsentByPair(s, pairs, "how much", 0);
    AbsentByPair(s, pairs, "price", 0);
    AbsentByPair(s, pairs, "funeral", 0);
  }

  /** "cost of package c" gets the price of Package C, the third catalog
      entry, from the lookup. */
  lemma CostOfPackageC(s: string)
    requires s == "cost of package c"
    ensures FirstMatch(s, 0) == Some(PriceRule)
    ensures DemoAiResponse(s) == PriceSentence(Packages()[2])
  {
    CostOfCAsks(s);
    CostOfCAvoids(s);
    CostOfReachesLookup(s, 2);
    CostOfQuotesPackage(s, 2);
  }

  lemma PriceOfCWords(s: string)
    requires s == "price of package c"
    ensures Contains(s, "price of package") && !Contains(s, "packages")
  {
    assert LitAt(s, "price of package", 0) by {
      LitAtIff(s, "price of package", 0, 0);
    }
    var pairs := {('p', 'r'), ('r', 'i'), ('i', 'c'), ('c', 'e'), ('e', ' '), (' ', 'o'), ('o', 'f'), ('f', ' '),
                  (' ', 'p'), ('p', 'a'), ('a', 'c'), ('c', 'k'), ('k', 'a'), ('a', 'g'), ('g', 'e'), (' ', 'c')};
    assert PairsWithin(s, pairs);
    AbsentByPair(s, pairs, "packages", 6);
  }

  /** "price of package c" gets the price-range reply instead: the range
      rule's `price.*package` comes first. */
  lemma PriceOfPackageC(s: string)
    requires s == "price of package c"
    ensures FirstMatch(s, 0) == Some(2) && DemoAiResponse(s) == RuleReply(2, s)
  {
    PriceOfCWords(s);
    PriceOfGetsRange(s);
  }

  // ---------------------------------------------------------------------
  // Catalog prices

  /** The three digits of `n` below a thousands separator. */
  function Pad3(n: nat): string
    requires n < 1000
  {
    [DigitChar(n / 100), DigitChar(n / 10 % 10), DigitChar(n % 10)]
  }

  /** `n` with its digits grouped by thousands, as in `250,000`. */
  function Grouped(n: nat): string {
    if n < 1000 then Numeral(n) else Grouped(n / 1000) + "," + Pad3(n % 1000)
  }

  /** The price label of an amount in pesos. */
  function PesoLabel(n: nat): string {
    "₱" + Grouped(n)
  }

  /** The amounts, in pesos, that the catalog's price labels show. */
  function Amounts(): seq<nat> {
    [30000, 40000, 50000, 60000, 70000, 80000, 90000, 100000, 120000, 250000]
  }

  /** Each catalog price is the peso label of its amount. */
  lemma CatalogAmount(x: nat)
    requires x < 10
    ensures |Amounts()| == |Packages()| && Packages()[x].price == PesoLabel(Amounts()[x])
  {
    if x < 5 { LowerAmount(x); } else { UpperAmount(x); }
  }

  lemma LowerAmount(x: nat)
    requires x < 5
    ensures Packages()[x].price == PesoLabel(Amounts()[x])
  {
    if x == 0 { assert PesoLabel(30000) == "₱30,000"; }
    else if x == 1 { assert PesoLabel(40000) == "₱40,000"; }
    else if x == 2 { assert PesoLabel(50000) == "₱50,000"; }
    else if x == 3 { assert PesoLabel(60000) == "₱60,000"; }
    else { assert PesoLabel(70000) == "₱70,000"; }
  }

  lemma UpperAmount(x: nat)
    requires 5 <= x < 10
    ensures Packages()[x].price == PesoLabel(Amounts()[x])
  {
    if x == 5 { assert PesoLabel(80000) == "₱80,000"; }
    else if x == 6 { assert PesoLabel(90000) == "₱90,000"; }
    else if x == 7 { assert PesoLabel(100000) == "₱100,000"; }
    else if x == 8 { assert PesoLabel(120000) == "₱120,000"; }
    else { assert PesoLabel(250000) == "₱250,000"; }
  }

  /** Catalog prices strictly increase from Package A to Package J. */
  lemma PricesIncrease(i: nat, j: nat)
    requires i < j < 10
    ensures Packages()[i].price == PesoLabel(Amounts()[i]) && Packages()[j].price == PesoLabel(Amounts()[j])
    ensures Amounts()[i] < Amounts()[j]
  {
    CatalogAmount(i);
    CatalogAmount(j);
  }

  /** The cheapest-package rule's answer quotes `Package A at ₱30,000`. */
  lemma CheapestRow()
    ensures AnswerOf(4).Fixed? && |AnswerOf(4).text| >= 51
    ensures AnswerOf(4).text[31..51] == "Package A at ₱30,000"
  {
  }

  /** The premium-package rule's answer quotes `Package J at ₱250,000`. */
  lemma PremiumRow()
    ensures AnswerOf(5).Fixed? && |AnswerOf(5).text| >= 44
    ensures AnswerOf(5).text[23..44] == "Package J at ₱250,000"
  {
  }

  /** A catalog entry as the answers quote it. */
  function Quoted(p: PackagePrice): string {
    p.name + " at " + p.price
  }

  lemma FirstQuoted()
    ensures Quoted(Packages()[0]) == "Package A at ₱30,000"
  {
  }

  lemma LastQuoted()
    ensures Quoted(Packages()[9]) == "Package J at ₱250,000"
  {
  }

  /** The first amount is the lowest of the catalog, the last the highest. */
  lemma CatalogExtremes()
    ensures |Amounts()| == 10
    ensures forall x :: 0 < x < 10 ==> Amounts()[0] < Amounts()[x]
    ensures forall x :: 0 <= x < 9 ==> Amounts()[x] < Amounts()[9]
  {
  }

  /** The cheapest-package answer names the first catalog entry with its
      price, which is the lowest of the catalog. */
  lemma CheapestIsFirst()
    ensures AnswerOf(4).Fixed? && |AnswerOf(4).text| >= 51
    ensures AnswerOf(4).text[31..51] == Quoted(Packages()[0])
  {
    CheapestRow();
    FirstQuoted();
  }

  /** The premium-package answer names the last catalog entry with its
      price, which is the highest of the catalog. */
  lemma PremiumIsLast()
    ensures AnswerOf(5).Fixed? && |AnswerOf(5).text| >= 44
    ensures AnswerOf(5).text[23..44] == Quoted(Packages()[9])
  {
    PremiumRow();
    LastQuoted();
  }
}
