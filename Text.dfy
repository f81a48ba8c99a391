/** String operations of the JavaScript runtime that the app's screens rely on:
    `String.prototype.trim`, ASCII case mapping, `split(' ')` and the `\d`
    filter used by the phone normaliser. Strings are sequences of Unicode
    code points; `length` counts UTF-16 code units (`Utf16Length`); case
    mapping is ASCII-only. */
module Text {

  /** The characters matched by the regular-expression class `\s` and removed
      by `trim()`: JavaScript's WhiteSpace and LineTerminator productions. */
  predicate IsWhitespace(c: char) {
    c == ' ' || c == '\t' || c == '\n' || c == '\r' || c == '\U{000B}' || c == '\U{000C}'
    || c == '\U{00A0}' || c == '\U{1680}' || ('\U{2000}' <= c <= '\U{200A}')
    || c == '\U{2028}' || c == '\U{2029}' || c == '\U{202F}' || c == '\U{205F}'
    || c == '\U{3000}' || c == '\U{FEFF}'
  }

  /** The characters that the regular-expression wildcard `.` does not match. */
  predicate IsLineTerminator(c: char) {
    c == '\n' || c == '\r' || c == '\U{2028}' || c == '\U{2029}'
  }

  predicate IsAsciiDigit(c: char) {
    '0' <= c <= '9'
  }

  predicate AllDigits(s: string) {
    forall i :: 0 <= i < |s| ==> IsAsciiDigit(s[i])
  }

  predicate NoWhitespace(s: string) {
    forall i :: 0 <= i < |s| ==> !IsWhitespace(s[i])
  }

  predicate AllWhitespace(s: string) {
    forall i :: 0 <= i < |s| ==> IsWhitespace(s[i])
  }

  function LowerChar(c: char): char {
    if 'A' <= c <= 'Z' then (c as int + 32) as char else c
  }

  function UpperChar(c: char): char {
    if 'a' <= c <= 'z' then (c as int - 32) as char else c
  }

  /** ASCII `toLowerCase`. */
  function Lower(s: string): (r: string)
    ensures |r| == |s|
    ensures forall i :: 0 <= i < |s| ==> r[i] == LowerChar(s[i])
  {
    if s == [] then [] else [LowerChar(s[0])] + Lower(s[1..])
  }

  /** Lowering commutes with taking a suffix. */
  lemma LowerSuffix(s: string, i: nat)
    requires i <= |s|
    ensures Lower(s[i..]) == Lower(s)[i..]
  {
  }

  /** Lowering commutes with taking a slice. */
  lemma {:induction false} LowerSlice(s: string, i: nat, j: nat)
    requires i <= j <= |s|
    ensures Lower(s[i..j]) == Lower(s)[i..j]
  {
    var a, b := Lower(s[i..j]), Lower(s)[i..j];
    assert forall k :: 0 <= k < |a| ==> a[k] == LowerChar(s[i + k]) == b[k];
  }

  /** A character outside the Basic Multilingual Plane, which UTF-16 writes
      as a surrogate pair. */
  predicate IsAstral(c: char) {
    c as int >= 0x1_0000
  }

  /** JavaScript's `length`: the number of UTF-16 code units, two for an
      astral character and one for any other. */
  function Utf16Length(s: string): (n: nat)
    ensures |s| <= n <= 2 * |s|
  {
    if s == [] then 0 else (if IsAstral(s[0]) then 2 else 1) + Utf16Length(s[1..])
  }

  /** `length` agrees with the number of characters exactly when no
      character is astral. */
  lemma {:induction false} Utf16LengthIff(s: string)
    ensures Utf16Length(s) == |s| <==> forall i :: 0 <= i < |s| ==> !IsAstral(s[i])
  {
    if s != [] {
      Utf16LengthIff(s[1..]);
      if forall i :: 0 <= i < |s| - 1 ==> !IsAstral(s[1..][i]) {
        assert forall i :: 1 <= i < |s| ==> !IsAstral(s[i]) by {
          forall i | 1 <= i < |s| ensures !IsAstral(s[i]) { assert s[1..][i - 1] == s[i]; }
        }
      } else {
        var i :| 0 <= i < |s| - 1 && IsAstral(s[1..][i]);
        assert IsAstral(s[i + 1]);
      }
    }
  }

  /** `length` of a concatenation. */
  lemma {:induction false} Utf16LengthConcat(a: string, b: string)
    ensures Utf16Length(a + b) == Utf16Length(a) + Utf16Length(b)
  {
    if a != [] {
      assert (a + b)[0] == a[0] && (a + b)[1..] == a[1..] + b;
      Utf16LengthConcat(a[1..], b);
    } else {
      assert a + b == b;
    }
  }

  /** The last `n` characters of `s`. */
  function Suffix(s: string, n: nat): (r: string)
    requires n <= |s|
    ensures |r| == n && s == s[..|s| - n] + r
  {
    s[|s| - n..]
  }

  lemma {:induction false} LowerIdempotent(s: string)
    ensures Lower(Lower(s)) == Lower(s)
  {
    var l := Lower(s);
    assert forall i :: 0 <= i < |l| ==> LowerChar(l[i]) == l[i];
  }

  /** The end of the run of whitespace that starts at `i`. */
  function WhitespaceFrom(s: string, i: nat): (j: nat)
    requires i <= |s|
    ensures i <= j <= |s| && (j == |s| || !IsWhitespace(s[j]))
    ensures forall k :: i <= k < j ==> IsWhitespace(s[k])
    decreases |s| - i
  {
    if i < |s| && IsWhitespace(s[i]) then WhitespaceFrom(s, i + 1) else i
  }

  /** The start of the run of whitespace that ends at `j`. */
  function WhitespaceBefore(s: string, j: nat): (i: nat)
    requires j <= |s|
    ensures i <= j && (i == 0 || !IsWhitespace(s[i - 1]))
    ensures forall k :: i <= k < j ==> IsWhitespace(s[k])
  {
    if j > 0 && IsWhitespace(s[j - 1]) then WhitespaceBefore(s, j - 1) else j
  }

  /** `s[..a]` and `s[b..]` are whitespace: cutting them off is what `trim()` may do. */
  predicate CutsWhitespace(s: string, a: int, b: int) {
    0 <= a <= b <= |s| && AllWhitespace(s[..a]) && AllWhitespace(s[b..])
  }

  /** `trim()`: the middle part of `s` whose first and last characters are
      not whitespace, everything cut off being whitespace. */
  function Trim(s: string): (r: string)
    ensures exists a, b :: CutsWhitespace(s, a, b) && r == s[a..b]
    ensures r == [] || (!IsWhitespace(r[0]) && !IsWhitespace(r[|r| - 1]))
  {
    var a := WhitespaceFrom(s, 0);
    if a == |s| then
      assert CutsWhitespace(s, a, a);
      []
    else
      var b := WhitespaceBefore(s, |s|);
      assert CutsWhitespace(s, a, b);
      s[a..b]
  }

  /** A string trims to the empty string exactly when it is all whitespace. */
  lemma TrimEmptyIff(s: string)
    ensures Trim(s) == [] <==> AllWhitespace(s)
  {
    var r := Trim(s);
    var a, b :| CutsWhitespace(s, a, b) && r == s[a..b];
    if r == [] {
      forall i | 0 <= i < |s| ensures IsWhitespace(s[i]) {
        if i < a { assert s[..a][i] == s[i]; } else { assert s[a..][i - a] == s[i]; }
      }
    } else {
      assert s[a] == r[0];
    }
  }

  lemma TrimIdempotent(s: string)
    ensures Trim(Trim(s)) == Trim(s)
  {
    TrimOfTrimmed(Trim(s));
  }

  /** A string with no whitespace at either end is its own trim. */
  lemma TrimOfTrimmed(s: string)
    requires s == [] || (!IsWhitespace(s[0]) && !IsWhitespace(s[|s| - 1]))
    ensures Trim(s) == s
  {
  }

  /** `replace(/[^0-9]/g, '')`: what is left is digits, and an all-digit
      text is left whole. `DigitsOne` and `DigitsConcat` say which digits:
      every ASCII digit of `s`, in order. */
  function Digits(s: string): (r: string)
    ensures AllDigits(r) && |r| <= |s|
    ensures AllDigits(s) ==> r == s
  {
    if s == [] then []
    else if IsAsciiDigit(s[0]) then [s[0]] + Digits(s[1..])
    else Digits(s[1..])
  }

  /** One character is kept exactly when it is an ASCII digit. */
  lemma DigitsOne(c: char)
    ensures Digits([c]) == if IsAsciiDigit(c) then [c] else []
  {
    assert [c][1..] == [];
  }

  /** The digits of a concatenation are those of the first part followed by
      those of the second: none is dropped and their order is kept. */
  lemma {:induction false} DigitsConcat(a: string, b: string)
    ensures Digits(a + b) == Digits(a) + Digits(b)
  {
    if a == [] {
      assert a + b == b;
    } else {
      assert (a + b)[0] == a[0] && (a + b)[1..] == a[1..] + b;
      DigitsConcat(a[1..], b);
    }
  }

  /** The ASCII digit of value `d`. */
  function DigitChar(d: nat): (c: char)
    requires d < 10
    ensures IsAsciiDigit(c) && c as int - '0' as int == d
  {
    ('0' as int + d) as char
  }

  /** The decimal numeral of `n`, as a template literal `${n}` renders it. */
  function Numeral(n: nat): (r: string)
    ensures |r| > 0 && AllDigits(r)
    ensures (n < 10) == (|r| == 1)
  {
    if n < 10 then [DigitChar(n)] else Numeral(n / 10) + [DigitChar(n % 10)]
  }

  /** Different numbers have different numerals. */
  lemma {:induction false} NumeralInjective(a: nat, b: nat)
    requires Numeral(a) == Numeral(b)
    ensures a == b
  {
    if a >= 10 && b >= 10 {
      var x, y := Numeral(a), Numeral(b);
      assert x[..|x| - 1] == Numeral(a / 10) && y[..|y| - 1] == Numeral(b / 10);
      NumeralInjective(a / 10, b / 10);
      assert x[|x| - 1] == DigitChar(a % 10) && y[|y| - 1] == DigitChar(b % 10);
    }
  }

  /** `slice(0, n)`. */
  function Take(s: string, n: nat): (r: string)
    ensures |r| == if |s| <= n then |s| else n
    ensures s == r + s[|r|..]
  {
    if |s| <= n then s else s[..n]
  }

  predicate StartsWith(s: string, prefix: string) {
    |prefix| <= |s| && s[..|prefix|] == prefix
  }

  /** `includes(lit)`: case-sensitive substring test. */
  predicate Includes(s: string, lit: string) {
    exists i :: 0 <= i <= |s| - |lit| && lit <= s[i..]
  }

  /** A character that `lit` has and `s` lacks rules out `s.includes(lit)`. */
  lemma NotIncludedByMissingChar(s: string, lit: string, c: char)
    requires c in lit && c !in s
    ensures !Includes(s, lit)
  {
    var k :| 0 <= k < |lit| && lit[k] == c;
    forall i | 0 <= i <= |s| - |lit| ensures !(lit <= s[i..]) {
      assert s[i..][k] == s[i + k] != c;
    }
  }

  /** Two consecutive characters of `lit` that never occur together in `s`
      rule out `s.includes(lit)`. */
  lemma NotIncludedByMissingPair(s: string, lit: string, k: nat)
    requires k + 1 < |lit|
    requires forall j :: 0 <= j < |s| - 1 ==> s[j] != lit[k] || s[j + 1] != lit[k + 1]
    ensures !Includes(s, lit)
  {
    forall i | 0 <= i <= |s| - |lit| ensures !(lit <= s[i..]) {
      assert s[i..][k] == s[i + k] && s[i..][k + 1] == s[i + k + 1];
    }
  }

  /** The inverse of `split`: the parts with `sep` between consecutive ones. */
  function Join(parts: seq<string>, sep: char): string {
    if |parts| == 0 then [] else if |parts| == 1 then parts[0] else parts[0] + [sep] + Join(parts[1..], sep)
  }

  /** Joining behind an empty first part puts a separator in front. */
  lemma JoinAfterEmpty(rest: seq<string>, sep: char)
    requires |rest| >= 1
    ensures Join([[]] + rest, sep) == [sep] + Join(rest, sep)
  {
    var parts := [[]] + rest;
    assert parts[0] == [] && parts[1..] == rest;
  }

  /** Joining with a character put in front of the first part puts it in
      front of the whole. */
  lemma JoinConsFirst(c: char, rest: seq<string>, sep: char)
    requires |rest| >= 1
    ensures Join([[c] + rest[0]] + rest[1..], sep) == [c] + Join(rest, sep)
  {
    var parts := [[c] + rest[0]] + rest[1..];
    assert parts[0] == [c] + rest[0] && parts[1..] == rest[1..];
  }

  /** `split(sep)` for a one-character separator: cuts `s` at every `sep`. */
  function Split(s: string, sep: char): (parts: seq<string>)
    ensures |parts| >= 1
    ensures forall k :: 0 <= k < |parts| ==> sep !in parts[k]
    ensures Join(parts, sep) == s
    ensures |parts| == 1 <==> sep !in s
  {
    if s == [] then [[]]
    else
      var rest := Split(s[1..], sep);
      assert s == [s[0]] + s[1..];
      if s[0] == sep then
        JoinAfterEmpty(rest, sep);
        [[]] + rest
      else
        JoinConsFirst(s[0], rest, sep);
        [[s[0]] + rest[0]] + rest[1..]
  }

  /** The first part of a split starts with the first character of the string
      when that character is not the separator. */
  lemma {:induction false} JoinFirst(parts: seq<string>, sep: char, s: string)
    requires |parts| >= 1 && Join(parts, sep) == s && s != [] && s[0] != sep
    ensures parts[0] != [] && parts[0][0] == s[0]
  {
  }

  /** The last part of a split is what follows the last separator. */
  lemma {:induction false} JoinLast(parts: seq<string>, sep: char)
    requires |parts| >= 2
    requires forall k :: 0 <= k < |parts| ==> sep !in parts[k]
    ensures var s := Join(parts, sep);
            var k := |s| - |parts[|parts| - 1]| - 1;
            0 <= k < |s| && s[k] == sep && s[k + 1..] == parts[|parts| - 1]
  {
    if |parts| > 2 {
      JoinLast(parts[1..], sep);
    }
  }

  /** `s` ends with `e`. */
  predicate EndsWith(s: string, e: string) {
    |e| <= |s| && s[|s| - |e|..] == e
  }

  lemma EndsWithTrans(s: string, t: string, e: string)
    requires EndsWith(s, t) && EndsWith(t, e)
    ensures EndsWith(s, e)
  {
    assert s[|s| - |e|..] == s[|s| - |t|..][|t| - |e|..];
  }

  predicate NoSeparator(parts: seq<string>, sep: char) {
    forall k :: 0 <= k < |parts| ==> sep !in parts[k]
  }

  /** The characters of `s` before its first `sep`. */
  function TakeUntil(s: string, sep: char): (r: string)
    ensures sep !in r && r <= s
  {
    if s == [] || s[0] == sep then [] else [s[0]] + TakeUntil(s[1..], sep)
  }

  lemma {:induction false} TakeUntilPrefix(a: string, rest: string, sep: char)
    requires sep !in a
    ensures TakeUntil(a + rest, sep) == a + TakeUntil(rest, sep)
  {
    if a == [] {
      assert a + rest == rest;
    } else {
      assert a[0] in a;
      assert (a + rest)[1..] == a[1..] + rest;
      TakeUntilPrefix(a[1..], rest, sep);
      assert a == [a[0]] + a[1..];
    }
  }

  /** The first of several separator-free parts is what precedes the first separator. */
  lemma JoinFirstPart(parts: seq<string>, sep: char)
    requires |parts| >= 1 && NoSeparator(parts, sep)
    ensures var s := Join(parts, sep);
            parts[0] == TakeUntil(s, sep) && (|parts| >= 2 <==> sep in s)
            && (|parts| >= 2 ==> Join(parts[1..], sep) == s[|parts[0]| + 1..])
  {
    var s := Join(parts, sep);
    if |parts| == 1 {
      TakeUntilPrefix(parts[0], [], sep);
      assert parts[0] + [] == parts[0];
    } else {
      var rest := [sep] + Join(parts[1..], sep);
      TakeUntilPrefix(parts[0], rest, sep);
      assert s == parts[0] + rest;
      assert TakeUntil(rest, sep) == [];
      assert parts[0] + [] == parts[0];
      assert s[|parts[0]|] == sep;
    }
  }

  /** Joining separator-free parts loses nothing: the parts are determined by the result. */
  lemma {:induction false} JoinInjective(p: seq<string>, q: seq<string>, sep: char)
    requires |p| >= 1 && |q| >= 1 && NoSeparator(p, sep) && NoSeparator(q, sep)
    requires Join(p, sep) == Join(q, sep)
    ensures p == q
  {
    JoinFirstPart(p, sep);
    JoinFirstPart(q, sep);
    if |p| >= 2 {
      JoinInjective(p[1..], q[1..], sep);
      assert p == [p[0]] + p[1..];
      assert q == [q[0]] + q[1..];
    }
  }

  /** `split` undoes `Join` on separator-free parts. */
  lemma SplitJoin(parts: seq<string>, sep: char)
    requires |parts| >= 1 && NoSeparator(parts, sep)
    ensures Split(Join(parts, sep), sep) == parts
  {
    JoinInjective(Split(Join(parts, sep), sep), parts, sep);
  }

  /** A text joined from a header, lines and a footer, none holding `sep`,
      splits back into exactly those parts. */
  lemma SplitFramed(header: string, lines: seq<string>, footer: string, sep: char)
    requires sep !in header && sep !in footer && NoSeparator(lines, sep)
    ensures Split(Join([header] + lines + [footer], sep), sep) == [header] + lines + [footer]
  {
    var parts := [header] + lines + [footer];
    assert forall k :: 1 <= k < |parts| - 1 ==> parts[k] == lines[k - 1];
    SplitJoin(parts, sep);
  }

  /** A framed join ends with its footer. */
  lemma FramedEnds(header: string, lines: seq<string>, footer: string, sep: char)
    requires sep !in header && sep !in footer && NoSeparator(lines, sep)
    ensures EndsWith(Join([header] + lines + [footer], sep), footer)
  {
    var parts := [header] + lines + [footer];
    assert forall k :: 1 <= k < |parts| - 1 ==> parts[k] == lines[k - 1];
    JoinLast(parts, sep);
  }
}
