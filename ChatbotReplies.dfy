/** What every reply of the assistant looks like, whatever the message: the
    fallbacks, the independence from letter case, and the price questions
    that one rule shadows from the other. */
module ChatbotReplies {
  import opened Text
  import opened Wrappers
  import opened Patterns
  import opened Chatbot
  import opened ChatbotFacts

  // ---------------------------------------------------------------------
  // No rule answers like a fallback

  /** The last two letters of the fallback replies. */
  lemma FallbackEndings()
    ensures EndsWith(ForgotPasswordHint, "t.") && EndsWith(DefaultReply, "w?")
  {
  }

  /** A text that ends otherwise than both fallback replies is neither. */
  lemma EndingText(r: string, e: string)
    requires |e| == 2 && EndsWith(r, e) && e != "t." && e != "w?"
    ensures FixedText(r)
  {
    FallbackEndings();
  }

  /** A listing ends with its footer. */
  lemma ListingEnds(h: string, f: string)
    requires '\n' !in h && '\n' !in f
    ensures EndsWith(Listing(h, f), f)
  {
    PackageLinesSingle();
    FramedEnds(h, PackageLines(Packages()), f, '\n');
  }

  lemma FooterEnding(k: nat)
    requires k < 2
    ensures EndsWith(ListingFooter(k), if k == 0 then "e." else "d.")
  {
    if k == 0 {
      assert EndsWith(ListingFooter(0), "e.");
    } else {
      assert EndsWith(ListingFooter(1), "d.");
    }
  }

  /** A listing ends with its footer, whose last letters are not those of a
      fallback reply. */
  lemma ListingText(k: nat)
    requires k < 2
    ensures FixedText(Listing(ListingHeader(k), ListingFooter(k)))
  {
    var e := if k == 0 then "e." else "d.";
    ListingEnds(ListingHeader(k), ListingFooter(k));
    FooterEnding(k);
    EndsWithTrans(Listing(ListingHeader(k), ListingFooter(k)), ListingFooter(k), e);
    EndingText(Listing(ListingHeader(k), ListingFooter(k)), e);
  }

  /** A price sentence ends in a question. */
  lemma PriceSentenceText(p: PackagePrice)
    ensures FixedText(PriceSentence(p))
  {
    assert EndsWith(PriceSentence(p), "d?");
    EndingText(PriceSentence(p), "d?");
  }

  /** A price reply names a package or says it found none; neither ends
      like a fallback reply. */
  lemma PriceReplyText(g: string)
    ensures FixedText(PriceReply(g))
  {
    match FindPackage(Packages(), g)
    case Some(x) =>
      PriceSentenceText(Packages()[x]);
    case None =>
      NotFoundText();
  }

  lemma NotFoundText()
    ensures FixedText(PackageNotFound)
  {
    assert EndsWith(PackageNotFound, "J.");
    EndingText(PackageNotFound, "J.");
  }

  lemma ListingRuleText(k: nat, s: string)
    requires k < RuleCount && AnswerOf(k).PackageList?
    ensures FixedText(RuleReply(k, s))
  {
    OtherAnswers(k);
    PriceRow();
    ListingRows(k);
    ListingText(k);
  }

  lemma PriceRuleText(k: nat, s: string)
    requires k < RuleCount && AnswerOf(k).PriceOfPackage?
    ensures FixedText(RuleReply(k, s))
  {
    match Capture(s)
    case Some(g) => PriceReplyText(g);
    case None => NotFoundText();
  }

  /** Whatever rule answers, its reply is a text that is not empty and is
      neither the password hint nor the default reply. */
  lemma RuleReplyText(k: nat, s: string)
    requires k < RuleCount
    ensures FixedText(RuleReply(k, s))
  {
    if AnswerOf(k).Fixed? {
      FixedAnswers(k);
    } else if AnswerOf(k).PackageList? {
      ListingRuleText(k, s);
    } else {
      PriceRuleText(k, s);
    }
  }

  /** The password hint is given exactly when no rule matches and the
      message asks `forgot.*password`; the default reply exactly when no
      rule matches and it does not. Every reply is non-empty. */
  lemma Fallbacks(s: string)
    ensures DemoAiResponse(s) == ForgotPasswordHint <==>
              FirstMatch(s, 0).None? && AltMatches(s, ["forgot", "password"])
    ensures DemoAiResponse(s) == DefaultReply <==>
              FirstMatch(s, 0).None? && !AltMatches(s, ["forgot", "password"])
    ensures |DemoAiResponse(s)| > 0
  {
    FallbackEndings();
    match FirstMatch(s, 0)
    case Some(k) =>
      Replies(s, k);
      RuleReplyText(k, s);
    case None =>
  }

  // ---------------------------------------------------------------------
  // Letter case does not matter

  /** The first matching rule depends on the message only up to case. */
  lemma FirstMatchIgnoresCase(s: string, t: string, k: nat)
    requires SameUpToCase(s, t) && k <= RuleCount
    ensures FirstMatch(s, k) == FirstMatch(t, k)
  {
    forall j | 0 <= j < RuleCount
      ensures Fires(s)[j] == Fires(t)[j]
    {
      AnyMatchesIgnoresCase(s, t, Question(j));
    }
    assert Fires(s) == Fires(t);
  }

  /** The catalog search compares lowered names only. */
  lemma {:induction false} FindPackageIgnoresCase(ps: seq<PackagePrice>, g: string, h: string)
    requires Lower(g) == Lower(h)
    ensures FindPackage(ps, g) == FindPackage(ps, h)
  {
    if ps != [] {
      FindPackageIgnoresCase(ps[1..], g, h);
    }
  }

  /** The captured package name depends on the message only up to case. */
  lemma CaptureIgnoresCase(s: string, t: string)
    requires SameUpToCase(s, t)
    ensures Capture(s).Some? == Capture(t).Some?
    ensures Capture(s).Some? ==> Lower(Capture(s).value) == Lower(Capture(t).value)
  {
    PriceQuestionPlain();
    MatchedTextIgnoresCase(s, t, PriceQuestion());
    if Capture(s).Some? {
      var m := MatchedText(s, PriceQuestion()).value;
      var n := MatchedText(t, PriceQuestion()).value;
      LowerSuffix(m, |m| - GroupLength);
      LowerSuffix(n, |n| - GroupLength);
      assert Suffix(m, GroupLength) == m[|m| - GroupLength..];
      assert Suffix(n, GroupLength) == n[|n| - GroupLength..];
      assert Suffix(Lower(m), GroupLength) == Lower(m)[|m| - GroupLength..];
      assert Suffix(Lower(n), GroupLength) == Lower(n)[|n| - GroupLength..];
    }
  }

  /** A rule answers messages equal up to case alike. */
  lemma RuleReplyIgnoresCase(k: nat, s: string, t: string)
    requires k < RuleCount && SameUpToCase(s, t)
    ensures RuleReply(k, s) == RuleReply(k, t)
  {
    if AnswerOf(k).PriceOfPackage? {
      CaptureIgnoresCase(s, t);
      if Capture(s).Some? {
        FindPackageIgnoresCase(Packages(), Capture(s).value, Capture(t).value);
      }
    }
  }

  /** Messages that differ only in the case of ASCII letters get the same
      reply: every question is matched ignoring case, and the price answer
      looks the captured name up ignoring case. */
  lemma ReplyIgnoresCase(s: string, t: string)
    requires SameUpToCase(s, t)
    ensures DemoAiResponse(s) == DemoAiResponse(t)
  {
    FirstMatchIgnoresCase(s, t, 0);
    AltMatchesIgnoresCase(s, t, ["forgot", "password"]);
    if FirstMatch(s, 0).Some? {
      var k := FirstMatch(s, 0).value;
      Replies(s, k);
      Replies(t, k);
      RuleReplyIgnoresCase(k, s, t);
    }
  }

  /** In particular a message gets the reply its lowered form gets. */
  lemma ReplyOfLowered(s: string)
    ensures DemoAiResponse(Lower(s)) == DemoAiResponse(s)
  {
    LowerIdempotent(s);
    ReplyIgnoresCase(Lower(s), s);
  }
}
