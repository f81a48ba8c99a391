/** The two e-mail checks of the app. Registration, login, the profile and
    the password-recovery screen accept `^[^\s@]+@[^\s@]+\.[^\s@]+$`; the
    booking form searches anywhere in the text for `\S+@\S+\.\S+`. */
module Email {
  import opened Text

  /** A character of `[^\s@]`. */
  predicate AddressChar(c: char) {
    !IsWhitespace(c) && c != '@'
  }

  predicate AddressChars(s: string) {
    forall i :: 0 <= i < |s| ==> AddressChar(s[i])
  }

  /** `s` is `[^\s@]+@[^\s@]+\.[^\s@]+` with the `@` at `p` and the `.` at `d`. */
  predicate ValidEmailAt(s: string, p: int, d: int) {
    && 0 < p < d < |s| - 1 && p + 1 < d
    && s[p] == '@' && s[d] == '.'
    && AddressChars(s[..p]) && AddressChars(s[p + 1..d]) && AddressChars(s[d + 1..])
  }

  /** The anchored check `/^[^\s@]+@[^\s@]+\.[^\s@]+$/.test(s)`. */
  predicate ValidEmail(s: string) {
    exists p, d :: 0 < p < d < |s| - 1 && ValidEmailAt(s, p, d)
  }

  /** `s[a..e]` is `\S+@\S+\.\S+` with the `@` at `p` and the `.` at `d`. */
  predicate LooseEmailAt(s: string, a: int, p: int, d: int, e: int) {
    && 0 <= a < p && p + 1 < d && d + 1 < e <= |s|
    && s[p] == '@' && s[d] == '.'
    && NoWhitespace(s[a..p]) && NoWhitespace(s[p + 1..d]) && NoWhitespace(s[d + 1..e])
  }

  /** The unanchored check `/\S+@\S+\.\S+/.test(s)`: some part of `s` matches. */
  predicate LooseEmail(s: string) {
    exists a, p, d, e :: 0 <= a < p < d < e <= |s| && LooseEmailAt(s, a, p, d, e)
  }

  /** The number of `@` in `s`. */
  function AtCount(s: string): nat {
    multiset(s)['@']
  }

  /** After the `@`, a `.` that is neither the first nor the last character. */
  predicate InnerDot(t: string) {
    exists d :: 0 < d < |t| - 1 && t[d] == '.'
  }

  /** The shape the anchored check describes, stated plainly: no whitespace,
      exactly one `@` with something before it, and after it a `.` that is
      neither its first nor its last character. */
  predicate EmailShape(s: string) {
    NoWhitespace(s) && AtCount(s) == 1
    && exists p :: 0 < p < |s| && s[p] == '@' && InnerDot(s[p + 1..])
  }

  lemma AtCountSplit(s: string, p: nat)
    requires p < |s|
    ensures AtCount(s) == AtCount(s[..p]) + AtCount([s[p]]) + AtCount(s[p + 1..])
  {
    assert s == s[..p] + [s[p]] + s[p + 1..];
  }

  lemma NoAtCount(s: string)
    requires forall i :: 0 <= i < |s| ==> s[i] != '@'
    ensures AtCount(s) == 0
  {
    assert '@' !in s;
  }

  /** A string with a single `@` has none elsewhere. */
  lemma OnlyAt(s: string, p: nat)
    requires p < |s| && s[p] == '@' && AtCount(s) == 1
    ensures forall i :: 0 <= i < |s| && i != p ==> s[i] != '@'
  {
    AtCountSplit(s, p);
    forall i | 0 <= i < |s| && i != p
      ensures s[i] != '@'
    {
      if i < p {
        assert s[i] == s[..p][i] && s[..p][i] in multiset(s[..p]);
      } else {
        assert s[i] == s[p + 1..][i - p - 1] && s[p + 1..][i - p - 1] in multiset(s[p + 1..]);
      }
    }
  }

  /** The anchored check accepts exactly the strings of that shape. */
  lemma ValidEmailShape(s: string)
    ensures ValidEmail(s) <==> EmailShape(s)
  {
    if ValidEmail(s) {
      var p, d :| 0 < p < d < |s| - 1 && ValidEmailAt(s, p, d);
      ValidToShape(s, p, d);
    }
    if EmailShape(s) {
      var p :| 0 < p < |s| && s[p] == '@' && InnerDot(s[p + 1..]);
      var t := s[p + 1..];
      var k :| 0 < k < |t| - 1 && t[k] == '.';
      ShapeToValid(s, p, p + 1 + k);
    }
  }

  lemma ValidToShape(s: string, p: nat, d: nat)
    requires ValidEmailAt(s, p, d)
    ensures EmailShape(s)
  {
    forall i | 0 <= i < |s| ensures !IsWhitespace(s[i]) {
      if i < p { assert s[i] == s[..p][i]; }
      else if p < i < d { assert s[i] == s[p + 1..d][i - p - 1]; }
      else if d < i { assert s[i] == s[d + 1..][i - d - 1]; }
    }
    forall i | 0 <= i < |s| && i != p ensures s[i] != '@' {
      if i < p { assert s[i] == s[..p][i]; }
      else if p < i < d { assert s[i] == s[p + 1..d][i - p - 1]; }
      else if d < i { assert s[i] == s[d + 1..][i - d - 1]; }
    }
    AtCountSplit(s, p);
    NoAtCount(s[..p]);
    NoAtCount(s[p + 1..]);
    assert s[p + 1..][d - p - 1] == '.';
  }

  lemma ShapeToValid(s: string, p: nat, d: nat)
    requires NoWhitespace(s) && AtCount(s) == 1
    requires 0 < p && p + 1 < d < |s| - 1 && s[p] == '@' && s[d] == '.'
    ensures ValidEmailAt(s, p, d)
  {
    OnlyAt(s, p);
    assert AddressChars(s[..p]);
    assert AddressChars(s[p + 1..d]);
    assert AddressChars(s[d + 1..]);
  }

  /** Every address the anchored check accepts passes the booking form's
      unanchored check. */
  lemma ValidIsLoose(s: string)
    requires ValidEmail(s)
    ensures LooseEmail(s)
  {
    var p, d :| 0 < p < d < |s| - 1 && ValidEmailAt(s, p, d);
    assert s[0..p] == s[..p] && s[d + 1..|s|] == s[d + 1..];
    assert LooseEmailAt(s, 0, p, d, |s|);
  }

  /** The converse fails: `a b@c.d` passes the unanchored check, whose match
      starts at `b`, but has a space, and `a@@b.c` has two `@`. */
  lemma LooseIsWeaker()
    ensures LooseEmail("a b@c.d") && !ValidEmail("a b@c.d")
    ensures LooseEmail("a@@b.c") && !ValidEmail("a@@b.c")
  {
    var s := "a b@c.d";
    assert LooseEmailAt(s, 2, 3, 5, 7);
    assert IsWhitespace(s[1]);
    ValidEmailShape(s);
    var t := "a@@b.c";
    assert t[2..4] == "@b";
    assert LooseEmailAt(t, 0, 1, 4, 6);
    assert t == "a@" + "@" + "b.c";
    assert AtCount(t) == 2;
    ValidEmailShape(t);
  }
}
