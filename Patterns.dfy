/** The fragment of JavaScript regular expressions that the assistant's
    question table uses, all compiled with the `/i` flag: alternatives
    (`x|y`), each a chain of literals joined by `.*`. Literals are written in
    lower case and letters of the input are compared after ASCII lowering,
    which is what `/i` does for ASCII patterns without the `u` flag. The
    wildcard `.` does not match a line terminator, so the literals of one
    alternative must all lie on one line of the input. */
module Patterns {
  import opened Text
  import opened Wrappers

  /** One alternative: the literals that `.*` separates, in order. */
  type Alternative = seq<string>

  /** Letters `k..` of `lit` match the input from position `i + k` on. */
  predicate MatchAt(s: string, lit: string, i: nat, k: nat)
    decreases |lit| - k, |s|
  {
    k >= |lit| || (i + k < |s| && LowerChar(s[i + k]) == lit[k] && MatchAt(s, lit, i, k + 1))
  }

  /** `lit` occurs at position `i` of `s`, ignoring ASCII case. */
  predicate LitAt(s: string, lit: string, i: nat) {
    MatchAt(s, lit, i, 0)
  }

  /** `lit` occurs somewhere in `s`, ignoring ASCII case. */
  predicate Contains(s: string, lit: string) {
    exists i: nat :: i <= |s| && LitAt(s, lit, i)
  }

  /** Parts `j..` of `alt` match with part `j` starting exactly at `i`. */
  predicate SeqAt(s: string, alt: Alternative, j: nat, i: nat)
    decreases |alt| - j, 0, |s|
  {
    j < |alt| && i <= |s| && LitAt(s, alt[j], i)
    && (j + 1 == |alt| || LaterOnLine(s, alt, j + 1, i + |alt[j]|))
  }

  /** Parts `j..` of `alt` match starting at `i` or later, with nothing but
      non-terminator characters (what `.*` consumes) skipped before them. */
  predicate LaterOnLine(s: string, alt: Alternative, j: nat, i: nat)
    decreases |alt| - j, 1, |s| - i
  {
    i <= |s| && (SeqAt(s, alt, j, i) || (i < |s| && !IsLineTerminator(s[i]) && LaterOnLine(s, alt, j, i + 1)))
  }

  /** The regular expression of one alternative finds a match in `s`. */
  predicate AltMatches(s: string, alt: Alternative) {
    exists i: nat :: i <= |s| && SeqAt(s, alt, 0, i)
  }

  /** Some alternative of the pattern finds a match in `s`. */
  predicate AnyMatches(s: string, alts: seq<Alternative>) {
    exists a :: 0 <= a < |alts| && AltMatches(s, alts[a])
  }

  /** Two inputs that differ only in the case of ASCII letters. */
  predicate SameUpToCase(s: string, t: string) {
    Lower(s) == Lower(t)
  }

  // ---------------------------------------------------------------------
  // Facts about single literals

  lemma {:induction false} MatchAtChar(s: string, lit: string, i: nat, k: nat, m: nat)
    requires MatchAt(s, lit, i, k) && k <= m < |lit|
    ensures i + m < |s| && LowerChar(s[i + m]) == lit[m]
    decreases m - k
  {
    if k < m {
      MatchAtChar(s, lit, i, k + 1, m);
    }
  }

  /** A literal matches at `i` exactly when every letter matches. */
  lemma {:induction false} LitAtIff(s: string, lit: string, i: nat, k: nat)
    requires k <= |lit|
    ensures MatchAt(s, lit, i, k) <==>
            (k == |lit| || i + |lit| <= |s|) && forall m :: k <= m < |lit| ==> LowerChar(s[i + m]) == lit[m]
    decreases |lit| - k
  {
    if k < |lit| {
      LitAtIff(s, lit, i, k + 1);
    }
  }

  /** Whether a literal occurs depends on the input only up to ASCII case. */
  lemma LitAtIgnoresCase(s: string, t: string, lit: string, i: nat)
    requires SameUpToCase(s, t)
    ensures LitAt(s, lit, i) == LitAt(t, lit, i)
  {
    LitAtIff(s, lit, i, 0);
    LitAtIff(t, lit, i, 0);
    assert |s| == |Lower(s)| == |Lower(t)| == |t|;
    forall m | 0 <= m < |s| ensures LowerChar(s[m]) == LowerChar(t[m]) {
      assert Lower(s)[m] == Lower(t)[m];
    }
  }

  /** A piece of a literal occurs wherever the literal does, shifted by its offset. */
  lemma SubLiteral(s: string, lit: string, sub: string, i: nat, o: nat)
    requires LitAt(s, lit, i) && o + |sub| <= |lit| && lit[o..o + |sub|] == sub
    ensures LitAt(s, sub, i + o)
  {
    LitAtIff(s, lit, i, 0);
    LitAtIff(s, sub, i + o, 0);
    forall m | 0 <= m < |sub| ensures LowerChar(s[i + o + m]) == sub[m] {
      assert sub[m] == lit[o + m];
    }
  }

  lemma ContainsSubLiteral(s: string, lit: string, sub: string, o: nat)
    requires Contains(s, lit) && o + |sub| <= |lit| && lit[o..o + |sub|] == sub
    ensures Contains(s, sub)
  {
    var i: nat :| i <= |s| && LitAt(s, lit, i);
    LitAtIff(s, lit, i, 0);
    SubLiteral(s, lit, sub, i, o);
  }

  /** The set of adjacent letter pairs of the lowered input lies within `pairs`. */
  predicate PairsWithin(s: string, pairs: set<(char, char)>) {
    forall i :: 0 <= i < |s| - 1 ==> (LowerChar(s[i]), LowerChar(s[i + 1])) in pairs
  }

  /** A literal with two adjacent letters that never stand side by side in
      the input does not occur in it. */
  lemma AbsentByPair(s: string, pairs: set<(char, char)>, lit: string, k: nat)
    requires PairsWithin(s, pairs)
    requires k + 1 < |lit| && (lit[k], lit[k + 1]) !in pairs
    ensures !Contains(s, lit)
  {
    forall i: nat ensures !LitAt(s, lit, i) {
      if LitAt(s, lit, i) {
        MatchAtChar(s, lit, i, 0, k);
        MatchAtChar(s, lit, i, 0, k + 1);
      }
    }
  }

  // ---------------------------------------------------------------------
  // Facts about alternatives

  /** Every literal of a matching alternative occurs in the input. */
  lemma {:induction false} SeqAtParts(s: string, alt: Alternative, j: nat, i: nat, m: nat)
    requires SeqAt(s, alt, j, i) && j <= m < |alt|
    ensures Contains(s, alt[m])
    decreases |alt| - j, 0, 0
  {
    if m == j {
      assert LitAt(s, alt[j], i);
    } else {
      LaterOnLineParts(s, alt, j + 1, i + |alt[j]|, m);
    }
  }

  lemma {:induction false} LaterOnLineParts(s: string, alt: Alternative, j: nat, i: nat, m: nat)
    requires LaterOnLine(s, alt, j, i) && j <= m < |alt|
    ensures Contains(s, alt[m])
    decreases |alt| - j, 1, |s| - i
  {
    if SeqAt(s, alt, j, i) {
      SeqAtParts(s, alt, j, i, m);
    } else {
      LaterOnLineParts(s, alt, j, i + 1, m);
    }
  }

  /** An alternative cannot match when one of its literals is absent. */
  lemma AltNeedsEveryPart(s: string, alt: Alternative, m: nat)
    requires AltMatches(s, alt) && m < |alt|
    ensures Contains(s, alt[m])
  {
    var i: nat :| i <= |s| && SeqAt(s, alt, 0, i);
    SeqAtParts(s, alt, 0, i, m);
  }

  lemma AltFailsWithoutPart(s: string, alt: Alternative, m: nat)
    requires m < |alt| && !Contains(s, alt[m])
    ensures !AltMatches(s, alt)
  {
    if AltMatches(s, alt) {
      AltNeedsEveryPart(s, alt, m);
    }
  }

  /** Part `m` of `alt` holds `lit` at offset `o`. */
  predicate PartHas(alt: Alternative, m: nat, o: nat, lit: string) {
    m < |alt| && o + |lit| <= |alt[m]| && alt[m][o..o + |lit|] == lit
  }

  /** An alternative that holds `lit` in one of its parts fails on an input
      without `lit`. */
  lemma AltNeedsLiteral(s: string, alt: Alternative, m: nat, o: nat, lit: string)
    requires PartHas(alt, m, o, lit) && !Contains(s, lit)
    ensures !AltMatches(s, alt)
  {
    if AltMatches(s, alt) {
      AltNeedsEveryPart(s, alt, m);
      ContainsSubLiteral(s, alt[m], lit, o);
    }
  }

  /** When every other alternative fails, the one left is the one that matched. */
  lemma PickAlternative(s: string, alts: seq<Alternative>, a: nat)
    requires AnyMatches(s, alts) && a < |alts|
    requires forall b :: 0 <= b < |alts| && b != a ==> !AltMatches(s, alts[b])
    ensures AltMatches(s, alts[a])
  {
  }

  /** A pattern that fails lacks the literal of each one-literal alternative. */
  lemma LiteralAbsent(s: string, alts: seq<Alternative>, b: nat, lit: string)
    requires !AnyMatches(s, alts) && b < |alts| && alts[b] == [lit]
    ensures !Contains(s, lit)
  {
    SingleLiteral(s, lit);
  }

  /** A one-literal alternative matches exactly when its literal occurs. */
  lemma SingleLiteral(s: string, lit: string)
    ensures AltMatches(s, [lit]) <==> Contains(s, lit)
  {
    if Contains(s, lit) {
      var i: nat :| i <= |s| && LitAt(s, lit, i);
      assert SeqAt(s, [lit], 0, i);
    }
  }

  /** A two-literal alternative matches when the second literal follows the
      first on the same line. */
  lemma PairOnOneLine(s: string, a: string, b: string, i: nat, j: nat)
    requires i + |a| <= j <= |s| && LitAt(s, a, i) && LitAt(s, b, j)
    requires forall k :: i + |a| <= k < j ==> !IsLineTerminator(s[k])
    ensures AltMatches(s, [a, b])
    decreases j - (i + |a|)
  {
    LaterFrom(s, [a, b], 1, i + |a|, j);
    assert SeqAt(s, [a, b], 0, i);
  }

  /** A literal `a`, then a gap without line terminators, then `b`, spelled
      out as one literal, matches the alternative `a.*b`. */
  lemma GapOnOneLine(s: string, a: string, gap: string, b: string, i: nat)
    requires i <= |s| && LitAt(s, a + gap + b, i)
    requires forall k :: 0 <= k < |gap| ==> !IsLineTerminator(gap[k])
    ensures AltMatches(s, [a, b])
  {
    var lit := a + gap + b;
    LitAtIff(s, lit, i, 0);
    assert lit[0..|a|] == a;
    assert lit[|a| + |gap|..|a| + |gap| + |b|] == b;
    SubLiteral(s, lit, a, i, 0);
    SubLiteral(s, lit, b, i, |a| + |gap|);
    forall k | i + |a| <= k < i + |a| + |gap|
      ensures !IsLineTerminator(s[k])
    {
      assert LowerChar(s[k]) == lit[k - i] == gap[k - i - |a|];
    }
    PairOnOneLine(s, a, b, i, i + |a| + |gap|);
  }

  lemma {:induction false} LaterFrom(s: string, alt: Alternative, j: nat, i: nat, p: nat)
    requires i <= p && SeqAt(s, alt, j, p)
    requires forall k :: i <= k < p ==> !IsLineTerminator(s[k])
    requires p <= |s|
    ensures LaterOnLine(s, alt, j, i)
    decreases p - i
  {
    if i < p {
      LaterFrom(s, alt, j, i + 1, p);
    }
  }

  lemma {:induction false} SeqAtIgnoresCase(s: string, t: string, alt: Alternative, j: nat, i: nat)
    requires SameUpToCase(s, t)
    ensures SeqAt(s, alt, j, i) == SeqAt(t, alt, j, i)
    decreases |alt| - j, 0, 0
  {
    if j < |alt| {
      LitAtIgnoresCase(s, t, alt[j], i);
      if j + 1 < |alt| {
        LaterOnLineIgnoresCase(s, t, alt, j + 1, i + |alt[j]|);
      }
    }
  }

  lemma {:induction false} LaterOnLineIgnoresCase(s: string, t: string, alt: Alternative, j: nat, i: nat)
    requires SameUpToCase(s, t)
    ensures LaterOnLine(s, alt, j, i) == LaterOnLine(t, alt, j, i)
    decreases |alt| - j, 1, |s| - i
  {
    assert |s| == |Lower(s)| == |Lower(t)| == |t|;
    if i <= |s| {
      SeqAtIgnoresCase(s, t, alt, j, i);
      if i < |s| {
        assert Lower(s)[i] == Lower(t)[i];
        LineTerminatorIgnoresCase(s[i], t[i]);
        LaterOnLineIgnoresCase(s, t, alt, j, i + 1);
      }
    }
  }

  lemma LineTerminatorIgnoresCase(c: char, d: char)
    requires LowerChar(c) == LowerChar(d)
    ensures IsLineTerminator(c) == IsLineTerminator(d)
  {
  }

  /** Whether a pattern matches depends on the input only up to ASCII case. */
  lemma AnyMatchesIgnoresCase(s: string, t: string, alts: seq<Alternative>)
    requires SameUpToCase(s, t)
    ensures AnyMatches(s, alts) == AnyMatches(t, alts)
  {
    forall a, i: nat | 0 <= a < |alts| ensures SeqAt(s, alts[a], 0, i) == SeqAt(t, alts[a], 0, i) {
      SeqAtIgnoresCase(s, t, alts[a], 0, i);
    }
  }

  // ---------------------------------------------------------------------
  // The leftmost match of a pattern whose alternatives are single literals,
  // as `String.prototype.match` reports it: the first position at which some
  // alternative matches, and there the first alternative in pattern order.

  predicate Plain(alts: seq<Alternative>) {
    forall a :: 0 <= a < |alts| ==> |alts[a]| == 1 && |alts[a][0]| > 0
  }

  /** The first alternative, from `a` on, whose literal occurs at `i`. */
  function FirstAltAt(s: string, alts: seq<Alternative>, i: nat, a: nat): (r: Option<nat>)
    requires Plain(alts)
    ensures r.Some? ==> a <= r.value < |alts| && LitAt(s, alts[r.value][0], i)
    ensures r.Some? ==> forall b :: a <= b < r.value ==> !LitAt(s, alts[b][0], i)
    ensures r.None? ==> forall b :: a <= b < |alts| ==> !LitAt(s, alts[b][0], i)
    decreases |alts| - a, |s|
  {
    if a >= |alts| then None
    else if LitAt(s, alts[a][0], i) then Some(a)
    else FirstAltAt(s, alts, i, a + 1)
  }

  /** The match found by scanning positions `i..` of `s`: its start and the
      index of the alternative that matched there. */
  function LeftmostFrom(s: string, alts: seq<Alternative>, i: nat): (r: Option<(nat, nat)>)
    requires Plain(alts)
    ensures r.Some? ==> i <= r.value.0 && r.value.1 < |alts| && LitAt(s, alts[r.value.1][0], r.value.0)
    ensures r.Some? ==> forall p, b :: i <= p < r.value.0 && 0 <= b < |alts| ==> !LitAt(s, alts[b][0], p)
    ensures r.None? ==> forall p, b :: i <= p && 0 <= b < |alts| ==> !LitAt(s, alts[b][0], p)
    decreases |s| + 1 - i
  {
    if i > |s| then
      NoLiteralBeyondEnd(s, alts, i);
      None
    else
      match FirstAltAt(s, alts, i, 0)
      case Some(a) => Some((i, a))
      case None => LeftmostFrom(s, alts, i + 1)
  }

  lemma NoLiteralBeyondEnd(s: string, alts: seq<Alternative>, i: nat)
    requires Plain(alts) && i > |s|
    ensures forall p, b :: i <= p && 0 <= b < |alts| ==> !LitAt(s, alts[b][0], p)
  {
    forall p, b | i <= p && 0 <= b < |alts| ensures !LitAt(s, alts[b][0], p) {
      LitAtIff(s, alts[b][0], p, 0);
    }
  }

  /** The text of the leftmost match (`match[0]`), when there is one. */
  function MatchedText(s: string, alts: seq<Alternative>): (r: Option<string>)
    requires Plain(alts)
    ensures r.Some? <==> AnyMatches(s, alts)
    ensures r.Some? ==> exists a, i: nat :: 0 <= a < |alts| && i + |alts[a][0]| <= |s|
                                    && LitAt(s, alts[a][0], i) && r.value == s[i..i + |alts[a][0]|]
  {
    forall a | 0 <= a < |alts| ensures AltMatches(s, alts[a]) <==> Contains(s, alts[a][0]) {
      assert alts[a] == [alts[a][0]];
      SingleLiteral(s, alts[a][0]);
    }
    match LeftmostFrom(s, alts, 0)
    case None => None
    case Some((i, a)) =>
      LitAtIff(s, alts[a][0], i, 0);
      Some(s[i..i + |alts[a][0]|])
  }

  /** The leftmost match is found at the same place in inputs equal up to case. */
  lemma {:induction false} LeftmostIgnoresCase(s: string, t: string, alts: seq<Alternative>, i: nat)
    requires Plain(alts) && SameUpToCase(s, t)
    ensures LeftmostFrom(s, alts, i) == LeftmostFrom(t, alts, i)
    decreases |s| + 1 - i
  {
    assert |s| == |Lower(s)| == |Lower(t)| == |t|;
    forall b | 0 <= b < |alts| ensures LitAt(s, alts[b][0], i) == LitAt(t, alts[b][0], i) {
      LitAtIgnoresCase(s, t, alts[b][0], i);
    }
    FirstAltIgnoresCase(s, t, alts, i, 0);
    if i <= |s| {
      LeftmostIgnoresCase(s, t, alts, i + 1);
    }
  }

  lemma {:induction false} FirstAltIgnoresCase(s: string, t: string, alts: seq<Alternative>, i: nat, a: nat)
    requires Plain(alts) && SameUpToCase(s, t)
    requires forall b :: 0 <= b < |alts| ==> LitAt(s, alts[b][0], i) == LitAt(t, alts[b][0], i)
    ensures FirstAltAt(s, alts, i, a) == FirstAltAt(t, alts, i, a)
    decreases |alts| - a
  {
    if a < |alts| {
      FirstAltIgnoresCase(s, t, alts, i, a + 1);
    }
  }

  lemma AltMatchesIgnoresCase(s: string, t: string, alt: Alternative)
    requires SameUpToCase(s, t)
    ensures AltMatches(s, alt) == AltMatches(t, alt)
  {
    forall i: nat ensures SeqAt(s, alt, 0, i) == SeqAt(t, alt, 0, i) {
      SeqAtIgnoresCase(s, t, alt, 0, i);
    }
  }

  /** Inputs equal up to case have leftmost matches equal up to case. */
  lemma MatchedTextIgnoresCase(s: string, t: string, alts: seq<Alternative>)
    requires Plain(alts) && SameUpToCase(s, t)
    ensures MatchedText(s, alts).Some? == MatchedText(t, alts).Some?
    ensures MatchedText(s, alts).Some? ==>
              |MatchedText(s, alts).value| == |MatchedText(t, alts).value|
              && Lower(MatchedText(s, alts).value) == Lower(MatchedText(t, alts).value)
  {
    LeftmostIgnoresCase(s, t, alts, 0);
    assert |s| == |Lower(s)| == |Lower(t)| == |t|;
    MatchedTextAt(s, alts);
    MatchedTextAt(t, alts);
    match LeftmostFrom(s, alts, 0)
    case None =>
    case Some((i, a)) =>
      LowerSlice(s, i, i + |alts[a][0]|);
      LowerSlice(t, i, i + |alts[a][0]|);
  }

  /** The matched text is the slice the leftmost match covers. */
  lemma MatchedTextAt(s: string, alts: seq<Alternative>)
    requires Plain(alts)
    ensures LeftmostFrom(s, alts, 0).None? ==> MatchedText(s, alts).None?
    ensures LeftmostFrom(s, alts, 0).Some? ==>
              var (i, a) := LeftmostFrom(s, alts, 0).value;
              i + |alts[a][0]| <= |s| && MatchedText(s, alts) == Some(s[i..i + |alts[a][0]|])
  {
    if LeftmostFrom(s, alts, 0).Some? {
      var (i, a) := LeftmostFrom(s, alts, 0).value;
      LitAtIff(s, alts[a][0], i, 0);
    }
  }

  /** The lowered text of a match is the literal that matched. */
  lemma MatchedTextLowered(s: string, lit: string, i: nat)
    requires LitAt(s, lit, i) && i + |lit| <= |s|
    ensures Lower(s[i..i + |lit|]) == lit
  {
    LitAtIff(s, lit, i, 0);
    var m := s[i..i + |lit|];
    assert forall k :: 0 <= k < |lit| ==> Lower(m)[k] == LowerChar(s[i + k]) == lit[k];
  }

  lemma SuffixLiteral(s: string, lit: string, i: nat, n: nat)
    requires LitAt(s, lit, i) && n <= |lit|
    ensures LitAt(s, Suffix(lit, n), i + |lit| - n)
  {
    assert lit[|lit| - n..|lit|] == Suffix(lit, n);
    SubLiteral(s, lit, Suffix(lit, n), i, |lit| - n);
  }

  /** The last `n` characters of a leftmost match are, up to case, the last
      `n` characters of some alternative, and the input contains them. */
  lemma MatchedSuffix(s: string, alts: seq<Alternative>, n: nat)
    requires Plain(alts) && AnyMatches(s, alts)
    requires forall a :: 0 <= a < |alts| ==> |alts[a][0]| >= n
    ensures |MatchedText(s, alts).value| >= n
    ensures exists a :: 0 <= a < |alts| && Lower(Suffix(MatchedText(s, alts).value, n)) == Suffix(alts[a][0], n)
                        && Contains(s, Suffix(alts[a][0], n))
  {
    var m := MatchedText(s, alts).value;
    var a, i: nat :| 0 <= a < |alts| && i + |alts[a][0]| <= |s| && LitAt(s, alts[a][0], i) && m == s[i..i + |alts[a][0]|];
    var lit := alts[a][0];
    var tail := Suffix(lit, n);
    MatchedTextLowered(s, lit, i);
    assert Lower(m) == lit;
    LowerSuffix(m, |m| - n);
    assert Suffix(m, n) == m[|m| - n..];
    SuffixLiteral(s, lit, i, n);
    assert Contains(s, tail);
  }
}
