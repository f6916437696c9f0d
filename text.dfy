/**
 * String operations the pipeline relies on: whitespace trimming, ASCII case
 * folding, substring search, joining, decimal digits and the code-point
 * ordering the song table is sorted by.
 */
module Text {
  import opened Wrappers

  // ---------------------------------------------------------------------------
  // Whitespace and trimming
  // ---------------------------------------------------------------------------

  /** The whitespace characters removed by `trim()`/`strip()` and matched by `\s`. */
  predicate IsSpace(c: char) {
    c == ' ' || c == '\t' || c == '\n' || c == '\r' || c == '\U{000B}' || c == '\U{000C}'
  }

  predicate AllSpace(s: string) {
    forall i :: 0 <= i < |s| ==> IsSpace(s[i])
  }

  /** `s` with its leading whitespace removed. */
  function TrimStart(s: string): (r: string)
    ensures |r| <= |s|
  {
    if s != [] && IsSpace(s[0]) then TrimStart(s[1..]) else s
  }

  /** What `TrimStart` removes is whitespace, and what it keeps is a suffix of `s`. */
  lemma {:induction false} TrimStartSpec(s: string)
    ensures var r := TrimStart(s); r == s[|s| - |r|..] && AllSpace(s[..|s| - |r|]) && (r == [] || !IsSpace(r[0]))
    decreases |s|
  {
    if s != [] && IsSpace(s[0]) {
      TrimStartSpec(s[1..]);
      var r := TrimStart(s);
      assert s[1..][|s| - 1 - |r|..] == s[|s| - |r|..];
      forall i | 0 <= i < |s| - |r| ensures IsSpace(s[i]) {
        if i > 0 {
          assert s[i] == s[1..][..|s| - 1 - |r|][i - 1];
        }
      }
    }
  }

  /** `s` with its trailing whitespace removed. */
  function TrimEnd(s: string): (r: string)
    ensures |r| <= |s|
  {
    if s != [] && IsSpace(s[|s| - 1]) then TrimEnd(s[..|s| - 1]) else s
  }

  /** What `TrimEnd` removes is whitespace, and what it keeps is a prefix of `s`. */
  lemma {:induction false} TrimEndSpec(s: string)
    ensures var r := TrimEnd(s); r == s[..|r|] && AllSpace(s[|r|..]) && (r == [] || !IsSpace(r[|r| - 1]))
    decreases |s|
  {
    if s != [] && IsSpace(s[|s| - 1]) {
      var t := s[..|s| - 1];
      TrimEndSpec(t);
      var r := TrimEnd(s);
      assert t[..|r|] == s[..|r|];
      forall i | |r| <= i < |s| ensures IsSpace(s[i]) {
        if i < |s| - 1 {
          assert s[i] == t[|r|..][i - |r|];
        }
      }
    }
  }

  /** JavaScript's `String.prototype.trim` and Python's `str.strip()`. */
  function Trim(s: string): (r: string)
    ensures |r| <= |s|
  {
    TrimEnd(TrimStart(s))
  }

  /**
   * `Trim` removes exactly the whitespace around `s`: `s` is `k` whitespace
   * characters, the result, and whitespace again.
   */
  lemma {:induction false} TrimSpec(s: string)
    ensures var k := |s| - |TrimStart(s)|; var r := Trim(s);
      k + |r| <= |s| && s == s[..k] + r + s[k + |r|..] && AllSpace(s[..k]) && AllSpace(s[k + |r|..]) &&
      (r == [] || (!IsSpace(r[0]) && !IsSpace(r[|r| - 1])))
  {
    var t := TrimStart(s);
    var k := |s| - |t|;
    TrimStartSpec(s);
    TrimEndSpec(t);
    var r := Trim(s);
    assert r == TrimEnd(t);
    assert t == s[k..];
    assert r == s[k..k + |r|];
    assert t[|r|..] == s[k + |r|..];
    assert s == s[..k] + s[k..k + |r|] + s[k + |r|..];
  }

  lemma {:induction false} TrimEndOfSpaceSuffix(s: string, w: string)
    requires AllSpace(w)
    ensures TrimEnd(s + w) == TrimEnd(s)
    decreases |w|
  {
    if w != [] {
      assert (s + w)[..|s + w| - 1] == s + w[..|w| - 1];
      TrimEndOfSpaceSuffix(s, w[..|w| - 1]);
    } else {
      assert s + w == s;
    }
  }

  lemma {:induction false} TrimStartOfSpacePrefix(w: string, s: string)
    requires AllSpace(w)
    ensures TrimStart(w + s) == TrimStart(s)
    decreases |w|
  {
    if w != [] {
      assert (w + s)[1..] == w[1..] + s;
      TrimStartOfSpacePrefix(w[1..], s);
    } else {
      assert w + s == s;
    }
  }

  lemma {:induction false} TrimEndNoTrailingSpace(s: string)
    requires s == [] || !IsSpace(s[|s| - 1])
    ensures TrimEnd(s) == s
  {
  }

  lemma {:induction false} TrimStartNoLeadingSpace(s: string)
    requires s == [] || !IsSpace(s[0])
    ensures TrimStart(s) == s
  {
  }

  /**
   * Whitespace around a value does not change its trimmed form: trimming
   * is what makes the duplicate key insensitive to padding.
   */
  lemma {:induction false} TrimIgnoresPadding(a: string, s: string, b: string)
    requires AllSpace(a) && AllSpace(b)
    ensures Trim(a + s + b) == Trim(s)
  {
    TrimStartOfSpacePrefix(a, s + b);
    assert a + s + b == a + (s + b);
    var t := TrimStart(s);
    TrimStartSpec(s);
    assert s + b == s[..|s| - |t|] + (t + b);
    TrimStartOfSpacePrefix(s[..|s| - |t|], t + b);
    if t == [] {
      assert t + b == b;
      TrimStartOfSpacePrefix(b, []);
      assert b + [] == b;
    } else {
      TrimStartNoLeadingSpace(t + b);
      assert TrimStart(s + b) == t + b;
      TrimEndOfSpaceSuffix(t, b);
    }
  }

  // ---------------------------------------------------------------------------
  // ASCII case folding
  // ---------------------------------------------------------------------------

  predicate IsUpper(c: char) {
    'A' <= c <= 'Z'
  }

  function LowerChar(c: char): (d: char)
    ensures !IsUpper(d)
    ensures !IsUpper(c) ==> d == c
    ensures IsSpace(d) <==> IsSpace(c)
  {
    if IsUpper(c) then (c as int + 32) as char else c
  }

  /** `toLowerCase()` / `lower()` on the ASCII letters. */
  function Lower(s: string): (r: string)
    ensures |r| == |s|
  {
    if s == [] then [] else [LowerChar(s[0])] + Lower(s[1..])
  }

  /** Folding leaves no upper-case letter, changes nothing else, and keeps whitespace where it was. */
  lemma {:induction false} LowerSpec(s: string)
    ensures forall i :: 0 <= i < |s| ==> !IsUpper(Lower(s)[i])
    ensures forall i :: 0 <= i < |s| && !IsUpper(s[i]) ==> Lower(s)[i] == s[i]
    ensures forall i :: 0 <= i < |s| ==> (IsSpace(Lower(s)[i]) <==> IsSpace(s[i]))
    ensures forall i :: 0 <= i < |s| ==> Lower(s)[i] == LowerChar(s[i])
    decreases |s|
  {
    if s != [] {
      LowerSpec(s[1..]);
      assert Lower(s) == [LowerChar(s[0])] + Lower(s[1..]);
      forall i | 1 <= i < |s| ensures Lower(s)[i] == LowerChar(s[i]) {
        assert Lower(s)[i] == Lower(s[1..])[i - 1];
      }
    }
  }

  lemma {:induction false} LowerIdempotent(s: string)
    ensures Lower(Lower(s)) == Lower(s)
  {
    var l := Lower(s);
    var ll := Lower(l);
    LowerSpec(s);
    LowerSpec(l);
    assert |ll| == |l|;
    forall i | 0 <= i < |l| ensures ll[i] == l[i] {
      assert !IsUpper(l[i]);
    }
  }

  lemma {:induction false} LowerAppend(a: string, b: string)
    ensures Lower(a + b) == Lower(a) + Lower(b)
    decreases |a|
  {
    if a != [] {
      assert (a + b)[1..] == a[1..] + b;
      LowerAppend(a[1..], b);
    } else {
      assert a + b == b;
    }
  }

  // ---------------------------------------------------------------------------
  // Substring search, splitting and joining
  // ---------------------------------------------------------------------------

  predicate OccursAt(s: string, sub: string, i: nat) {
    i + |sub| <= |s| && s[i..i + |sub|] == sub
  }

  predicate Contains(s: string, sub: string) {
    exists i: nat | i <= |s| :: OccursAt(s, sub, i)
  }

  function IndexFrom(s: string, sub: string, k: nat): (r: Option<nat>)
    requires k <= |s| + 1
    ensures r.Some? ==> k <= r.value && r.value + |sub| <= |s|
    decreases |s| + 1 - k
  {
    if k + |sub| > |s| then None
    else if s[k..k + |sub|] == sub then Some(k)
    else IndexFrom(s, sub, k + 1)
  }

  /** The search from `k` finds the first occurrence at or after `k`, and none when there is none. */
  lemma {:induction false} IndexFromSpec(s: string, sub: string, k: nat)
    requires k <= |s| + 1
    ensures var r := IndexFrom(s, sub, k);
      (r.Some? ==> OccursAt(s, sub, r.value) && forall j: nat :: k <= j < r.value ==> !OccursAt(s, sub, j)) &&
      (r.None? ==> forall j: nat :: k <= j ==> !OccursAt(s, sub, j))
    decreases |s| + 1 - k
  {
    if k + |sub| <= |s| && s[k..k + |sub|] != sub {
      IndexFromSpec(s, sub, k + 1);
    }
  }

  /** The index of the first occurrence of `sub` in `s`, if any. */
  function IndexOf(s: string, sub: string): (r: Option<nat>)
    ensures r.Some? ==> r.value + |sub| <= |s|
  {
    IndexFrom(s, sub, 0)
  }

  lemma {:induction false} IndexOfSpec(s: string, sub: string)
    ensures var r := IndexOf(s, sub);
      (r.Some? <==> Contains(s, sub)) &&
      (r.Some? ==> OccursAt(s, sub, r.value) && forall j: nat :: j < r.value ==> !OccursAt(s, sub, j))
  {
    IndexFromSpec(s, sub, 0);
  }

  /** `s.split(c)[0]`: the text before the first `c`, or all of `s`. */
  function BeforeFirst(s: string, c: char): (r: string)
    ensures |r| <= |s|
  {
    match IndexOf(s, [c])
    case None => s
    case Some(i) => s[..i]
  }

  /** The text before the first `c` is a prefix free of `c`, and `c` follows it unless it is all of `s`. */
  lemma {:induction false} BeforeFirstSpec(s: string, c: char)
    ensures var r := BeforeFirst(s, c);
      r == s[..|r|] && (forall i :: 0 <= i < |r| ==> r[i] != c) && (|r| < |s| ==> s[|r|] == c)
  {
    IndexOfSpec(s, [c]);
    match IndexOf(s, [c])
    case None =>
      forall i | 0 <= i < |s| ensures s[i] != c {
        assert !OccursAt(s, [c], i);
        assert s[i..i + 1] == [s[i]];
      }
    case Some(i) =>
      forall j | 0 <= j < i ensures s[j] != c {
        assert !OccursAt(s, [c], j);
        assert s[j..j + 1] == [s[j]];
      }
      assert s[i..i + 1] == [c];
  }

  /** `parts.join(sep)`. */
  function Join(parts: seq<string>, sep: string): string
    decreases |parts|
  {
    if parts == [] then ""
    else if |parts| == 1 then parts[0]
    else Join(parts[..|parts| - 1], sep) + sep + parts[|parts| - 1]
  }

  // ---------------------------------------------------------------------------
  // Decimal digits
  // ---------------------------------------------------------------------------

  predicate IsDigit(c: char) {
    '0' <= c <= '9'
  }

  predicate AllDigits(s: string) {
    forall i :: 0 <= i < |s| ==> IsDigit(s[i])
  }

  function DigitChar(d: nat): (c: char)
    requires d < 10
    ensures IsDigit(c)
  {
    ('0' as int + d) as char
  }

  function DigitValue(c: char): (d: nat)
    requires IsDigit(c)
    ensures d < 10 && DigitChar(d) == c
  {
    c as int - '0' as int
  }

  /** The number a string of decimal digits denotes (`parseInt`, `int()`); 0 for "". */
  function DigitsValue(s: string): nat
    requires AllDigits(s)
  {
    if s == [] then 0 else DigitsValue(s[..|s| - 1]) * 10 + DigitValue(s[|s| - 1])
  }

  /** The decimal representation of `n`, without leading zeros (`toString`). */
  function NatToString(n: nat): (r: string)
    ensures AllDigits(r) && |r| >= 1
    ensures n < 10 ==> |r| == 1
    ensures 10 <= n < 100 ==> |r| == 2
    ensures n >= 100 ==> |r| >= 3
  {
    if n < 10 then [DigitChar(n)] else NatToString(n / 10) + [DigitChar(n % 10)]
  }

  lemma {:induction false} NatToStringRoundTrip(n: nat)
    ensures DigitsValue(NatToString(n)) == n
  {
    if n >= 10 {
      NatToStringRoundTrip(n / 10);
      var s := NatToString(n);
      assert s[..|s| - 1] == NatToString(n / 10);
    }
  }

  /** Leading zeros do not change the value of a digit string. */
  lemma {:induction false} LeadingZero(s: string)
    requires AllDigits(s)
    ensures AllDigits("0" + s) && DigitsValue("0" + s) == DigitsValue(s)
    decreases |s|
  {
    if s != [] {
      var z := "0" + s;
      assert z[..|z| - 1] == "0" + s[..|s| - 1];
      LeadingZero(s[..|s| - 1]);
    } else {
      assert DigitsValue("0") == 0;
    }
  }

  /** The longest prefix of `s` made of digits. */
  function DigitPrefix(s: string): (r: string)
    ensures AllDigits(r) && |r| <= |s|
    decreases |s|
  {
    if s != [] && IsDigit(s[0]) then [s[0]] + DigitPrefix(s[1..]) else []
  }

  /** `DigitPrefix` is a prefix of `s` that stops only at a non-digit or the end. */
  lemma {:induction false} DigitPrefixSpec(s: string)
    ensures var r := DigitPrefix(s); r == s[..|r|] && (|r| == |s| || !IsDigit(s[|r|]))
    decreases |s|
  {
    if s != [] && IsDigit(s[0]) {
      DigitPrefixSpec(s[1..]);
      var rest := DigitPrefix(s[1..]);
      assert [s[0]] + rest == s[..1 + |rest|];
    }
  }

  /** The first run of digits in `s` (the match of `\d+`), if there is one. */
  function FirstDigitRun(s: string): (r: Option<string>)
    ensures r.Some? ==> r.value != [] && AllDigits(r.value)
  {
    if s == [] then None
    else if IsDigit(s[0]) then Some(DigitPrefix(s))
    else FirstDigitRun(s[1..])
  }

  /** There is no run of digits exactly when `s` has no digit. */
  lemma {:induction false} FirstDigitRunNone(s: string)
    ensures FirstDigitRun(s).None? <==> forall i :: 0 <= i < |s| ==> !IsDigit(s[i])
    decreases |s|
  {
    if s != [] && !IsDigit(s[0]) {
      FirstDigitRunNone(s[1..]);
      assert forall i :: 1 <= i < |s| ==> s[i] == s[1..][i - 1];
    }
  }

  lemma {:induction false} FirstDigitRunSkips(p: string, s: string)
    requires forall i :: 0 <= i < |p| ==> !IsDigit(p[i])
    ensures FirstDigitRun(p + s) == FirstDigitRun(s)
    decreases |p|
  {
    if p != [] {
      assert (p + s)[1..] == p[1..] + s;
      FirstDigitRunSkips(p[1..], s);
    } else {
      assert p + s == s;
    }
  }

  /** The digits of `s`, in order, with everything else removed (`replace(/\D/g, '')`). */
  function DigitsOnly(s: string): (r: string)
    ensures AllDigits(r) && |r| <= |s|
  {
    if s == [] then []
    else if IsDigit(s[0]) then [s[0]] + DigitsOnly(s[1..])
    else DigitsOnly(s[1..])
  }

  lemma {:induction false} DigitsOnlyAppend(a: string, b: string)
    ensures DigitsOnly(a + b) == DigitsOnly(a) + DigitsOnly(b)
    decreases |a|
  {
    if a != [] {
      assert (a + b)[1..] == a[1..] + b;
      DigitsOnlyAppend(a[1..], b);
    } else {
      assert a + b == b;
    }
  }

  lemma {:induction false} DigitsOnlyOfDigits(s: string)
    requires AllDigits(s)
    ensures DigitsOnly(s) == s
    decreases |s|
  {
    if s != [] {
      DigitsOnlyOfDigits(s[1..]);
    }
  }

  // ---------------------------------------------------------------------------
  // Code-point order of strings
  // ---------------------------------------------------------------------------

  /** `a` sorts at or before `b` when strings are compared character by character. */
  predicate StrLe(a: string, b: string)
    decreases |a|
  {
    a == [] || (b != [] && (a[0] < b[0] || (a[0] == b[0] && StrLe(a[1..], b[1..]))))
  }

  lemma {:induction false} StrLeTotal(a: string, b: string)
    ensures StrLe(a, b) || StrLe(b, a)
    decreases |a|
  {
    if a != [] && b != [] && a[0] == b[0] {
      StrLeTotal(a[1..], b[1..]);
    }
  }

  lemma {:induction false} StrLeTransitive(a: string, b: string, c: string)
    requires StrLe(a, b) && StrLe(b, c)
    ensures StrLe(a, c)
    decreases |a|
  {
    if a != [] && a[0] == b[0] && b[0] == c[0] {
      StrLeTransitive(a[1..], b[1..], c[1..]);
    }
  }

  lemma {:induction false} StrLeAntisymmetric(a: string, b: string)
    requires StrLe(a, b) && StrLe(b, a)
    ensures a == b
    decreases |a|
  {
    if a != [] {
      StrLeAntisymmetric(a[1..], b[1..]);
      assert a == [a[0]] + a[1..] && b == [b[0]] + b[1..];
    }
  }

  /** A shared prefix does not influence the comparison. */
  lemma {:induction false} StrLeCommonPrefix(p: string, x: string, y: string)
    ensures StrLe(p + x, p + y) <==> StrLe(x, y)
    decreases |p|
  {
    if p != [] {
      assert (p + x)[1..] == p[1..] + x;
      assert (p + y)[1..] == p[1..] + y;
      StrLeCommonPrefix(p[1..], x, y);
    } else {
      assert p + x == x && p + y == y;
    }
  }
}
