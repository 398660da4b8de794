/** The string built-ins the core relies on: `toLowerCase`, `trim`, `includes`,
    `localeCompare`, and the decimal rendering of a clock value (`${Date.now()}`). */
module Text {

  /** Lower-casing of one character. Only 'A'..'Z' are mapped; Unicode case
      mapping is not modelled. */
  function LowerChar(c: char): (r: char)
    ensures IsWhitespace(r) <==> IsWhitespace(c)
    ensures 'A' <= c <= 'Z' ==> 'a' <= r <= 'z'
    ensures !('A' <= c <= 'Z') ==> r == c
  {
    if 'A' <= c <= 'Z' then (c as int + 32) as char else c
  }

  /** `s.toLowerCase()`, character by character. */
  function Lower(s: string): (r: string)
    ensures |r| == |s|
    ensures forall i :: 0 <= i < |s| ==> r[i] == LowerChar(s[i])
  {
    seq(|s|, i requires 0 <= i < |s| => LowerChar(s[i]))
  }

  /** The characters `String.prototype.trim` removes: white space and line terminators. */
  predicate IsWhitespace(c: char) {
    c == ' ' || c == '\t' || c == '\n' || c == '\U{000B}' || c == '\U{000C}' || c == '\r'
    || c == '\U{00A0}' || c == '\U{1680}' || ('\U{2000}' <= c <= '\U{200A}')
    || c == '\U{2028}' || c == '\U{2029}' || c == '\U{202F}' || c == '\U{205F}'
    || c == '\U{3000}' || c == '\U{FEFF}'
  }

  predicate AllWhitespace(s: string) {
    forall i :: 0 <= i < |s| ==> IsWhitespace(s[i])
  }

  /** Joining two runs of white space gives a run of white space. */
  lemma WhitespaceJoin(a: string, b: string)
    requires AllWhitespace(a) && AllWhitespace(b)
    ensures AllWhitespace(a + b)
  {
    forall i | 0 <= i < |a + b| ensures IsWhitespace((a + b)[i]) {
      if i < |a| { assert (a + b)[i] == a[i]; } else { assert (a + b)[i] == b[i - |a|]; }
    }
  }

  /** Drops leading white space; the result is a suffix of `s`. */
  function TrimStart(s: string): (r: string)
    ensures |r| <= |s| && r == s[|s| - |r|..]
    ensures AllWhitespace(s[..|s| - |r|])
    ensures r == [] || !IsWhitespace(r[0])
  {
    if s != [] && IsWhitespace(s[0]) then
      var r := TrimStart(s[1..]);
      assert s[..|s| - |r|] == [s[0]] + s[1..][..|s| - 1 - |r|];
      WhitespaceJoin([s[0]], s[1..][..|s| - 1 - |r|]);
      r
    else s
  }

  /** Drops trailing white space; the result is a prefix of `s`. */
  function TrimEnd(s: string): (r: string)
    ensures |r| <= |s| && r == s[..|r|]
    ensures AllWhitespace(s[|r|..])
    ensures r == [] || !IsWhitespace(r[|r| - 1])
  {
    if s != [] && IsWhitespace(s[|s| - 1]) then
      var r := TrimEnd(s[..|s| - 1]);
      assert s[|r|..] == s[..|s| - 1][|r|..] + [s[|s| - 1]];
      WhitespaceJoin(s[..|s| - 1][|r|..], [s[|s| - 1]]);
      r
    else s
  }

  /** `s.trim()`: what is left after removing white space at both ends. */
  function Trim(s: string): (r: string)
    ensures r == [] || (!IsWhitespace(r[0]) && !IsWhitespace(r[|r| - 1]))
    ensures |r| <= |s|
  {
    TrimEnd(TrimStart(s))
  }

  /** `s.trim()` is an inner slice of `s` with only white space outside it;
      with the ends `Trim` guarantees, that is exactly the maximal such cut. */
  lemma TrimKeepsInnerSlice(s: string)
    ensures exists i, j :: 0 <= i <= j <= |s| && Trim(s) == s[i..j] && OnlyWhitespaceOutside(s, i, j)
  {
    TrimIsInnerSlice(s, TrimStart(s), Trim(s));
  }

  /** Every character of `s` before `i` or from `j` on is white space. */
  predicate OnlyWhitespaceOutside(s: string, i: nat, j: nat)
    requires i <= j <= |s|
  {
    forall k :: 0 <= k < |s| && (k < i || j <= k) ==> IsWhitespace(s[k])
  }

  /** A prefix of a suffix of `s`, each cut off at white space, is an inner
      slice of `s` with only white space outside it. */
  lemma TrimIsInnerSlice(s: string, t: string, r: string)
    requires |t| <= |s| && t == s[|s| - |t|..] && AllWhitespace(s[..|s| - |t|])
    requires |r| <= |t| && r == t[..|r|] && AllWhitespace(t[|r|..])
    ensures |s| - |t| + |r| <= |s| && r == s[|s| - |t|..|s| - |t| + |r|]
    ensures OnlyWhitespaceOutside(s, |s| - |t|, |s| - |t| + |r|)
  {
    var i := |s| - |t|;
    forall k | 0 <= k < |r| ensures r[k] == s[i + k] {
      assert r[k] == t[k] && t[k] == s[i..][k];
    }
    assert r == s[i..i + |r|];
    forall k | 0 <= k < |s| && (k < i || i + |r| <= k) ensures IsWhitespace(s[k]) {
      if k < i {
        assert s[k] == s[..i][k];
      } else {
        assert s[k] == s[i..][k - i] == t[|r|..][k - i - |r|];
      }
    }
  }

  /** `t` occurs in `s` starting at index `i`. */
  predicate OccursAt(s: string, t: string, i: nat) {
    i + |t| <= |s| && s[i..i + |t|] == t
  }

  /** Occurrences in the tail of `s` are the occurrences in `s` one further on. */
  lemma OccursInTail(s: string, t: string)
    requires s != []
    ensures OccursAt(s, t, 0) <==> t <= s
    ensures forall i: nat :: OccursAt(s[1..], t, i) <==> OccursAt(s, t, i + 1)
  {
    forall i: nat ensures OccursAt(s[1..], t, i) <==> OccursAt(s, t, i + 1) {
      if i + 1 + |t| <= |s| {
        assert s[1..][i..i + |t|] == s[i + 1..i + 1 + |t|];
      }
    }
  }

  /** `s.includes(t)`: `t` starts `s` or is included in its tail. */
  predicate Contains(s: string, t: string) {
    if t <= s then true
    else if s == [] then false
    else Contains(s[1..], t)
  }

  /** `includes` holds exactly when `t` occurs in `s` as a contiguous block. */
  lemma {:induction false} ContainsIsOccurrence(s: string, t: string)
    ensures Contains(s, t) <==> exists i: nat :: OccursAt(s, t, i)
  {
    if t <= s {
      assert OccursAt(s, t, 0);
    } else if s != [] {
      OccursInTail(s, t);
      ContainsIsOccurrence(s[1..], t);
      assert forall i: nat :: OccursAt(s, t, i) ==> i > 0 && OccursAt(s[1..], t, i - 1);
    }
  }

  /** A string longer than `s` is not included in it. */
  lemma {:induction false} LongerNotContained(s: string, t: string)
    requires |t| > |s|
    ensures !Contains(s, t)
  {
    if s != [] {
      LongerNotContained(s[1..], t);
    }
  }

  /** A one-character string occurs exactly where that character does. */
  lemma {:induction false} ContainsSingle(s: string, c: char)
    ensures Contains(s, [c]) <==> c in s
  {
    if s != [] {
      ContainsSingle(s[1..], c);
      assert s == [s[0]] + s[1..];
    }
  }

  lemma {:induction false} TrimStartBlank(s: string)
    requires AllWhitespace(s)
    ensures TrimStart(s) == []
  {
    if s != [] {
      TrimStartBlank(s[1..]);
    }
  }

  lemma {:induction false} TrimStartKeeps(s: string, i: nat)
    requires i < |s| && !IsWhitespace(s[i])
    ensures |TrimStart(s)| >= |s| - i
  {
    if IsWhitespace(s[0]) {
      TrimStartKeeps(s[1..], i - 1);
    }
  }

  lemma {:induction false} TrimEndKeepsFirst(t: string)
    requires t != [] && !IsWhitespace(t[0])
    ensures TrimEnd(t) != []
  {
    if IsWhitespace(t[|t| - 1]) {
      TrimEndKeepsFirst(t[..|t| - 1]);
    }
  }

  /** A string trims to the empty string exactly when it consists of white space only. */
  lemma {:induction false} TrimEmptyIffBlank(s: string)
    ensures Trim(s) == [] <==> AllWhitespace(s)
  {
    if AllWhitespace(s) {
      TrimStartBlank(s);
    } else {
      var i :| 0 <= i < |s| && !IsWhitespace(s[i]);
      TrimStartKeeps(s, i);
      TrimEndKeepsFirst(TrimStart(s));
    }
  }

  lemma TrimStartFixed(s: string)
    requires s == [] || !IsWhitespace(s[0])
    ensures TrimStart(s) == s
  {
  }

  lemma TrimEndFixed(s: string)
    requires s == [] || !IsWhitespace(s[|s| - 1])
    ensures TrimEnd(s) == s
  {
  }

  /** Trimming twice is trimming once. */
  lemma {:induction false} TrimIdempotent(s: string)
    ensures Trim(Trim(s)) == Trim(s)
  {
    var r := Trim(s);
    TrimStartFixed(r);
    TrimEndFixed(r);
  }

  lemma LowerTail(s: string)
    requires s != []
    ensures Lower(s)[1..] == Lower(s[1..])
    ensures Lower(s)[..|s| - 1] == Lower(s[..|s| - 1])
  {
  }

  lemma {:induction false} TrimStartLower(s: string)
    ensures TrimStart(Lower(s)) == Lower(TrimStart(s))
    decreases |s|
  {
    if s != [] {
      LowerTail(s);
      if IsWhitespace(s[0]) {
        TrimStartLower(s[1..]);
      }
    }
  }

  lemma {:induction false} TrimEndLower(s: string)
    ensures TrimEnd(Lower(s)) == Lower(TrimEnd(s))
    decreases |s|
  {
    if s != [] {
      LowerTail(s);
      if IsWhitespace(s[|s| - 1]) {
        TrimEndLower(s[..|s| - 1]);
      }
    }
  }

  /** Lower-casing does not move white space, so it commutes with trimming. */
  lemma {:induction false} TrimLowerCommute(s: string)
    ensures Trim(Lower(s)) == Lower(Trim(s))
  {
    TrimStartLower(s);
    TrimEndLower(TrimStart(s));
  }

  /** Lexicographic order on character codes: the model's stand-in for
      `a.localeCompare(b) <= 0`. */
  predicate NameLe(a: string, b: string) {
    if a == [] then true
    else if b == [] then false
    else if a[0] != b[0] then a[0] < b[0]
    else NameLe(a[1..], b[1..])
  }

  /** `NameLe` is the lexicographic order: `a` is a prefix of `b`, or the
      two first differ at an index where `a` has the smaller character. */
  lemma {:induction false} NameLeIsLexicographic(a: string, b: string)
    ensures NameLe(a, b) <==> a <= b || exists k: nat :: FirstDifferenceBelow(a, b, k)
  {
    if a != [] && b != [] {
      if a[0] < b[0] {
        assert FirstDifferenceBelow(a, b, 0);
      } else if a[0] == b[0] {
        FirstDifferenceInTail(a, b);
        NameLeIsLexicographic(a[1..], b[1..]);
        assert forall k: nat :: FirstDifferenceBelow(a, b, k) ==> k > 0 && FirstDifferenceBelow(a[1..], b[1..], k - 1);
      }
    }
  }

  /** `a` and `b` agree before index `k`, where `a` has the smaller character. */
  predicate FirstDifferenceBelow(a: string, b: string, k: nat) {
    k < |a| && k < |b| && a[..k] == b[..k] && a[k] < b[k]
  }

  /** With equal first characters, the first difference moves one index on. */
  lemma FirstDifferenceInTail(a: string, b: string)
    requires a != [] && b != [] && a[0] == b[0]
    ensures !FirstDifferenceBelow(a, b, 0)
    ensures a[1..] <= b[1..] <==> a <= b
    ensures forall k: nat :: FirstDifferenceBelow(a[1..], b[1..], k) <==> FirstDifferenceBelow(a, b, k + 1)
  {
    forall k: nat ensures FirstDifferenceBelow(a[1..], b[1..], k) <==> FirstDifferenceBelow(a, b, k + 1) {
      if k + 1 < |a| && k + 1 < |b| {
        assert a[..k + 1] == [a[0]] + a[1..][..k] && b[..k + 1] == [b[0]] + b[1..][..k];
      }
    }
    if a <= b {
      assert a[1..] == b[1..][..|a| - 1];
    }
    if a[1..] <= b[1..] {
      assert a == [a[0]] + a[1..] && b[..|a|] == [b[0]] + b[1..][..|a| - 1];
    }
  }

  lemma {:induction false} NameLeReflexive(a: string)
    ensures NameLe(a, a)
  {
    if a != [] {
      NameLeReflexive(a[1..]);
    }
  }

  lemma {:induction false} NameLeTotal(a: string, b: string)
    ensures NameLe(a, b) || NameLe(b, a)
  {
    if a != [] && b != [] && a[0] == b[0] {
      NameLeTotal(a[1..], b[1..]);
    }
  }

  lemma {:induction false} NameLeTransitive(a: string, b: string, c: string)
    requires NameLe(a, b) && NameLe(b, c)
    ensures NameLe(a, c)
  {
    if a != [] && a[0] == b[0] && b[0] == c[0] {
      NameLeTransitive(a[1..], b[1..], c[1..]);
    }
  }

  lemma {:induction false} NameLeAntisymmetric(a: string, b: string)
    requires NameLe(a, b) && NameLe(b, a)
    ensures a == b
  {
    if a != [] {
      NameLeAntisymmetric(a[1..], b[1..]);
      assert a == [a[0]] + a[1..] && b == [b[0]] + b[1..];
    }
  }

  predicate IsDigit(c: char) {
    '0' <= c <= '9'
  }

  function DigitChar(d: nat): (c: char)
    requires d < 10
    ensures IsDigit(c)
  {
    ('0' as int + d) as char
  }

  function DigitValue(c: char): (d: nat)
    requires IsDigit(c)
    ensures d < 10
  {
    c as int - '0' as int
  }

  /** `${n}` for a non-negative integer: its decimal digits, without leading zeros. */
  function DecimalString(n: nat): (s: string)
    ensures s != []
    ensures forall i :: 0 <= i < |s| ==> IsDigit(s[i])
    ensures |s| > 1 ==> s[0] != '0'
  {
    if n < 10 then [DigitChar(n)] else DecimalString(n / 10) + [DigitChar(n % 10)]
  }

  /** Reads a string of decimal digits back as a number. */
  function DecimalValue(s: string): nat
    requires forall i :: 0 <= i < |s| ==> IsDigit(s[i])
  {
    if s == [] then 0 else DecimalValue(s[..|s| - 1]) * 10 + DigitValue(s[|s| - 1])
  }

  /** The decimal rendering loses nothing: reading it back gives the number. */
  lemma {:induction false} DecimalRoundTrip(n: nat)
    ensures DecimalValue(DecimalString(n)) == n
  {
    var s := DecimalString(n);
    if n >= 10 {
      DecimalRoundTrip(n / 10);
      assert s[..|s| - 1] == DecimalString(n / 10);
    }
  }

  /** Distinct clock values render as distinct strings. */
  lemma DecimalStringInjective(m: nat, n: nat)
    requires DecimalString(m) == DecimalString(n)
    ensures m == n
  {
    DecimalRoundTrip(m);
    DecimalRoundTrip(n);
  }
}
