/**
 * Week labels: the `week` column holds strings such as "week 07". New rows
 * get "week " followed by the week number padded to at least two digits;
 * existing rows are read back by extracting digits from the label.
 */
module Weeks {
  import opened Wrappers
  import opened Text

  /** `s.padStart(width, fill)`: `fill` repeated in front of `s` up to `width` characters. */
  function PadStart(s: string, width: nat, fill: char): (r: string)
    ensures |r| == if |s| >= width then |s| else width
  {
    if |s| >= width then s else seq(width - |s|, _ => fill) + s
  }

  /**
   * The label of week `n`: `"week " + n.toString().padStart(2, '0')` in the
   * TypeScript sync and `f"week {n:02d}"` in the Python importer, which agree
   * on every natural number.
   */
  function WeekLabel(n: nat): string {
    "week " + PadStart(NatToString(n), 2, '0')
  }

  /**
   * The week number of a label as the index builders read it: the first run
   * of digits (`/\d+/`), as an integer, or 0 when there is none.
   */
  function WeekNumber(week: string): nat {
    match FirstDigitRun(week)
    case None => 0
    case Some(d) => DigitsValue(d)
  }

  /**
   * The week number as the single-row maximum reads it: every non-digit is
   * removed and the remaining digits are parsed; no digit at all gives 0.
   */
  function AllDigitsNumber(week: string): nat {
    DigitsValue(DigitsOnly(week))
  }

  lemma {:induction false} PaddedDigits(n: nat)
    ensures AllDigits(PadStart(NatToString(n), 2, '0'))
    ensures DigitsValue(PadStart(NatToString(n), 2, '0')) == n
  {
    var s := NatToString(n);
    NatToStringRoundTrip(n);
    if |s| < 2 {
      assert PadStart(s, 2, '0') == "0" + s;
      LeadingZero(s);
    }
  }

  predicate NoDigits(p: string) {
    forall i :: 0 <= i < |p| ==> !IsDigit(p[i])
  }

  lemma {:induction false} LabelPrefixHasNoDigits()
    ensures NoDigits("week ")
  {
  }

  lemma {:induction false} DigitsOnlyOfText(p: string)
    requires NoDigits(p)
    ensures DigitsOnly(p) == []
    decreases |p|
  {
    if p != [] {
      DigitsOnlyOfText(p[1..]);
    }
  }

  lemma {:induction false} NumberAfterText(p: string, d: string)
    requires NoDigits(p) && AllDigits(d) && d != []
    ensures WeekNumber(p + d) == DigitsValue(d)
  {
    FirstDigitRunSkips(p, d);
    DigitPrefixSpec(d);
    assert DigitPrefix(d) == d;
  }

  lemma {:induction false} AllDigitsAfterText(p: string, d: string)
    requires NoDigits(p) && AllDigits(d)
    ensures AllDigitsNumber(p + d) == DigitsValue(d)
  {
    DigitsOnlyAppend(p, d);
    DigitsOnlyOfDigits(d);
    DigitsOnlyOfText(p);
    assert DigitsOnly(p + d) == d;
  }

  /** Reading a label back with the first-digit-run rule yields its number. */
  lemma {:induction false} WeekLabelRoundTrip(n: nat)
    ensures WeekNumber(WeekLabel(n)) == n
  {
    PaddedDigits(n);
    LabelPrefixHasNoDigits();
    NumberAfterText("week ", PadStart(NatToString(n), 2, '0'));
  }

  /** Reading a label back with the all-digits rule yields its number as well. */
  lemma {:induction false} WeekLabelAllDigits(n: nat)
    ensures AllDigitsNumber(WeekLabel(n)) == n
  {
    PaddedDigits(n);
    LabelPrefixHasNoDigits();
    AllDigitsAfterText("week ", PadStart(NatToString(n), 2, '0'));
  }

  /** Two labels differ whenever their numbers differ. */
  lemma {:induction false} WeekLabelInjective(a: nat, b: nat)
    requires WeekLabel(a) == WeekLabel(b)
    ensures a == b
  {
    WeekLabelRoundTrip(a);
    WeekLabelRoundTrip(b);
  }

  /** `WeekLabel` is injective, stated for every pair of numbers. */
  lemma {:induction false} WeekLabelsDistinct()
    ensures forall a: nat, b: nat :: WeekLabel(a) == WeekLabel(b) ==> a == b
  {
    forall a: nat, b: nat | WeekLabel(a) == WeekLabel(b) ensures a == b {
      WeekLabelInjective(a, b);
    }
  }

  /** The two digits of a padded number below 100. */
  lemma {:induction false} TwoDigits(n: nat)
    requires n < 100
    ensures PadStart(NatToString(n), 2, '0') == [DigitChar(n / 10), DigitChar(n % 10)]
  {
    var q, r := n / 10, n % 10;
    assert n == q * 10 + r && r < 10 && q < 10;
    if n < 10 {
      assert q == 0 && r == n;
      assert NatToString(n) == [DigitChar(n)];
      assert DigitChar(0) == '0';
    } else {
      assert NatToString(n) == NatToString(q) + [DigitChar(r)];
      assert NatToString(q) == [DigitChar(q)];
    }
  }

  /**
   * Below week 100, sorting labels as strings orders them by number: this is
   * why "the row with the greatest `week` string" is the newest song.
   */
  lemma {:induction false} WeekLabelOrder(a: nat, b: nat)
    requires a < 100 && b < 100
    ensures StrLe(WeekLabel(a), WeekLabel(b)) <==> a <= b
  {
    TwoDigits(a);
    TwoDigits(b);
    var qa, ra, qb, rb := a / 10, a % 10, b / 10, b % 10;
    DecimalOrder(a, b);
    StrLeCommonPrefix("week ", [DigitChar(qa), DigitChar(ra)], [DigitChar(qb), DigitChar(rb)]);
    TwoCharOrder(DigitChar(qa), DigitChar(ra), DigitChar(qb), DigitChar(rb));
    DigitCharOrder(qa, qb);
    DigitCharOrder(ra, rb);
  }

  lemma {:induction false} DecimalOrder(a: nat, b: nat)
    ensures a <= b <==> a / 10 < b / 10 || (a / 10 == b / 10 && a % 10 <= b % 10)
  {
  }

  lemma {:induction false} DigitCharOrder(x: nat, y: nat)
    requires x < 10 && y < 10
    ensures DigitChar(x) < DigitChar(y) <==> x < y
    ensures DigitChar(x) == DigitChar(y) <==> x == y
    ensures DigitChar(x) <= DigitChar(y) <==> x <= y
  {
  }

  lemma {:induction false} TwoCharOrder(c1: char, c2: char, d1: char, d2: char)
    ensures StrLe([c1, c2], [d1, d2]) <==> c1 < d1 || (c1 == d1 && c2 <= d2)
  {
    assert [c1, c2][1..] == [c2] && [d1, d2][1..] == [d2];
    assert [c2][1..] == [] && [d2][1..] == [];
    assert StrLe([c2], [d2]) <==> c2 <= d2 by {
      assert StrLe([], []);
    }
  }

  /**
   * From week 100 on the string order no longer follows the numbers:
   * "week 100" sorts before "week 99".
   */
  lemma {:induction false} WeekLabelOrderBreaksAt100()
    ensures StrLe(WeekLabel(100), WeekLabel(99)) && !StrLe(WeekLabel(99), WeekLabel(100))
  {
    assert NatToString(100) == "100";
    assert NatToString(99) == "99";
    assert WeekLabel(100) == "week 100";
    assert WeekLabel(99) == "week 99";
    StrLeCommonPrefix("week ", "100", "99");
    StrLeCommonPrefix("week ", "99", "100");
  }
}
