/** Text helpers shared by the front-end model: decimal digits, `toString`,
    `padStart(2, "0")`, `parseInt` on a leading digit run, and JavaScript's
    `<` on strings (lexicographic by character code). */
module Text {

  import opened Options

  predicate IsDigit(c: char) {
    '0' <= c <= '9'
  }

  predicate AllDigits(s: string) {
    forall i :: 0 <= i < |s| ==> IsDigit(s[i])
  }

  function DigitChar(d: nat): (c: char)
    requires d < 10
    ensures IsDigit(c)
  {
    (48 + d) as char
  }

  function DigitValue(c: char): (d: nat)
    requires IsDigit(c)
    ensures d < 10 && DigitChar(d) == c
  {
    (c as int - 48) as nat
  }

  /** `n.toString()` for a non-negative integer. */
  function NatToString(n: nat): (s: string)
    ensures 1 <= |s|
    ensures AllDigits(s)
    ensures n < 10 <==> |s| == 1
    decreases n
  {
    if n < 10 then [DigitChar(n)] else NatToString(n / 10) + [DigitChar(n % 10)]
  }

  /** `n.toString()` for any integer. */
  function IntToString(n: int): string {
    if n < 0 then "-" + NatToString(-n) else NatToString(n)
  }

  /** `s.padStart(2, "0")`. */
  function PadStart2(s: string): (r: string)
    ensures |s| >= 2 ==> r == s
    ensures |s| < 2 ==> |r| == 2 && r[2 - |s|..] == s
  {
    if |s| >= 2 then s else if |s| == 1 then "0" + s else "00"
  }

  /** `n.toString().padStart(2, "0")`, spelled out digit by digit for the
      two-digit numbers; `Pad2IsPadStart` shows the two readings agree. */
  function Pad2(n: int): string {
    if 0 <= n < 100 then [DigitChar(n / 10), DigitChar(n % 10)] else PadStart2(IntToString(n))
  }

  /** The digit-by-digit spelling is `padStart(2, "0")` of `toString()` for
      every integer. */
  lemma Pad2IsPadStart(n: int)
    ensures Pad2(n) == PadStart2(IntToString(n))
  {
    if 10 <= n < 100 {
      assert NatToString(n / 10) == [DigitChar(n / 10)];
    }
  }

  lemma Pad2Small(n: nat)
    requires n < 100
    ensures Pad2(n) == [DigitChar(n / 10), DigitChar(n % 10)]
  {
  }

  /** The "HH:MM" label the time pickers build from an hour and a minute. */
  function FormatHM(h: int, m: int): string {
    Pad2(h) + ":" + Pad2(m)
  }

  /** A five-character "HH:MM" string over ASCII digits. */
  predicate IsHHMM(t: string) {
    |t| == 5 && IsDigit(t[0]) && IsDigit(t[1]) && t[2] == ':' && IsDigit(t[3]) && IsDigit(t[4])
  }

  function HoursOf(t: string): nat
    requires IsHHMM(t)
  {
    10 * DigitValue(t[0]) + DigitValue(t[1])
  }

  function MinutesOf(t: string): nat
    requires IsHHMM(t)
  {
    10 * DigitValue(t[3]) + DigitValue(t[4])
  }

  /** A zero-padded clock label in the day: hours below 24, minutes below 60. */
  predicate IsClockLabel(t: string) {
    IsHHMM(t) && HoursOf(t) < 24 && MinutesOf(t) < 60
  }

  function MinuteOfDay(t: string): nat
    requires IsHHMM(t)
  {
    60 * HoursOf(t) + MinutesOf(t)
  }

  lemma FormatHMSmall(h: nat, m: nat)
    requires h < 100 && m < 100
    ensures IsHHMM(FormatHM(h, m))
    ensures HoursOf(FormatHM(h, m)) == h && MinutesOf(FormatHM(h, m)) == m
  {
    Pad2Small(h);
    Pad2Small(m);
  }

  /** Formatting and reading back a two-digit label are inverse to each other. */
  lemma {:induction false} FormatHMOfLabel(t: string)
    requires IsHHMM(t)
    ensures FormatHM(HoursOf(t), MinutesOf(t)) == t
  {
    var h, m := HoursOf(t), MinutesOf(t);
    DivMod10(DigitValue(t[0]), DigitValue(t[1]));
    DivMod10(DigitValue(t[3]), DigitValue(t[4]));
    LabelDigits(h, m);
    assert t == [t[0], t[1], ':', t[3], t[4]];
  }

  lemma DivMod10(a: nat, b: nat)
    requires b < 10
    ensures (10 * a + b) / 10 == a && (10 * a + b) % 10 == b
  {
  }

  // ---------------------------------------------------------------------------
  // String length
  // ---------------------------------------------------------------------------

  /** How many UTF-16 code units JavaScript stores for one character: two for
      a character outside the Basic Multilingual Plane (a surrogate pair). */
  function CodeUnits(c: char): nat {
    if c as int >= 0x1_0000 then 2 else 1
  }

  /** `s.length`, which counts UTF-16 code units rather than characters. */
  function Utf16Length(s: string): (n: nat)
    ensures |s| <= n <= 2 * |s|
  {
    if |s| == 0 then 0 else Utf16Length(s[..|s| - 1]) + CodeUnits(s[|s| - 1])
  }

  /** The length of a concatenation is the sum of the lengths. */
  lemma {:induction false} Utf16LengthAppend(a: string, b: string)
    ensures Utf16Length(a + b) == Utf16Length(a) + Utf16Length(b)
    decreases |b|
  {
    if |b| == 0 {
      assert a + b == a;
    } else {
      assert (a + b)[..|a + b| - 1] == a + b[..|b| - 1];
      Utf16LengthAppend(a, b[..|b| - 1]);
    }
  }

  /** On text without astral characters `.length` is the character count, and
      a single astral character makes it exceed the count. */
  lemma {:induction false} Utf16LengthBmp(s: string)
    ensures (forall i :: 0 <= i < |s| ==> s[i] as int < 0x1_0000) <==> Utf16Length(s) == |s|
  {
    if |s| > 0 {
      var init := s[..|s| - 1];
      Utf16LengthBmp(init);
      assert forall i :: 0 <= i < |init| ==> init[i] == s[i];
    }
  }

  // ---------------------------------------------------------------------------
  // parseInt
  // ---------------------------------------------------------------------------

  /** Length of the run of ASCII digits at the start of `s`. */
  function DigitRun(s: string): (n: nat)
    ensures n <= |s|
    ensures AllDigits(s[..n])
    ensures n < |s| ==> !IsDigit(s[n])
  {
    if |s| == 0 || !IsDigit(s[0]) then 0
    else
      var k := DigitRun(s[1..]);
      assert s[..k + 1] == [s[0]] + s[1..][..k];
      k + 1
  }

  /** Value of a string of decimal digits. */
  function DigitsValue(s: string): nat
    requires AllDigits(s)
  {
    if |s| == 0 then 0 else 10 * DigitsValue(s[..|s| - 1]) + DigitValue(s[|s| - 1])
  }

  /** `parseInt(s)` on an optional sign followed by a leading digit run; `None`
      stands for NaN (no digit after the sign). */
  function ParseIntPrefix(s: string): Option<int> {
    var neg := |s| > 0 && s[0] == '-';
    var body := if |s| > 0 && (s[0] == '-' || s[0] == '+') then s[1..] else s;
    var n := DigitRun(body);
    if n == 0 then None
    else
      var v: int := DigitsValue(body[..n]);
      Some(if neg then -v else v)
  }

  lemma {:induction false} DigitsValueOfNatToString(n: nat)
    ensures DigitsValue(NatToString(n)) == n
    decreases n
  {
    if n >= 10 {
      var s := NatToString(n);
      assert s[..|s| - 1] == NatToString(n / 10);
      DigitsValueOfNatToString(n / 10);
    }
  }

  /** `parseInt` reads back what `toString` printed, whatever follows the digits. */
  lemma ParseIntOfNatToString(n: nat, rest: string)
    requires |rest| == 0 || !IsDigit(rest[0])
    ensures ParseIntPrefix(NatToString(n) + rest) == Some(n)
  {
    var s := NatToString(n) + rest;
    var k := |NatToString(n)|;
    assert s[0] != '-' && s[0] != '+' by { assert IsDigit(s[0]); }
    assert s[..k] == NatToString(n);
    assert AllDigits(s[..k]);
    DigitRunExact(s, k);
    DigitsValueOfNatToString(n);
  }

  lemma {:induction false} DigitRunExact(s: string, k: nat)
    requires k <= |s|
    requires AllDigits(s[..k])
    requires k == |s| || !IsDigit(s[k])
    ensures DigitRun(s) == k
    decreases k
  {
    if k > 0 {
      assert IsDigit(s[..k][0]);
      assert s[1..][..k - 1] == s[..k][1..];
      DigitRunExact(s[1..], k - 1);
    }
  }

  // ---------------------------------------------------------------------------
  // JavaScript string comparison
  // ---------------------------------------------------------------------------

  /** JavaScript's `a < b` on two strings: lexicographic by character, a proper
      prefix before its extensions. */
  predicate Less(a: string, b: string)
    decreases |a|
  {
    if |b| == 0 then false
    else if |a| == 0 then true
    else if a[0] != b[0] then a[0] < b[0]
    else Less(a[1..], b[1..])
  }

  /** JavaScript's `a >= b` on two strings. */
  predicate AtLeast(a: string, b: string) {
    !Less(a, b)
  }

  lemma {:induction false} LessIrreflexive(a: string)
    ensures !Less(a, a)
    decreases |a|
  {
    if |a| > 0 {
      LessIrreflexive(a[1..]);
    }
  }

  /** JavaScript's order on two-character strings. */
  lemma LessPair(a0: char, a1: char, b0: char, b1: char)
    ensures Less([a0, a1], [b0, b1]) <==> a0 < b0 || (a0 == b0 && a1 < b1)
  {
    var x, y := [a0, a1], [b0, b1];
    assert Less(x, y) <==> a0 < b0 || (a0 == b0 && Less(x[1..], y[1..]));
    assert x[1..] == [a1] && y[1..] == [b1];
    assert Less([a1], [b1]) <==> a1 < b1 by {
      assert [a1][1..] == [] && [b1][1..] == [];
    }
  }

  /** JavaScript's order on two "HH:MM"-shaped strings: by hour digits, then
      by minute digits. */
  lemma LessLabel(a0: char, a1: char, c0: char, c1: char, b0: char, b1: char, d0: char, d1: char)
    ensures Less([a0, a1, ':', c0, c1], [b0, b1, ':', d0, d1]) <==>
      a0 < b0 || (a0 == b0 && (a1 < b1 || (a1 == b1 && (c0 < d0 || (c0 == d0 && c1 < d1)))))
  {
    var x, y := [a0, a1, ':', c0, c1], [b0, b1, ':', d0, d1];
    assert Less(x, y) <==> a0 < b0 || (a0 == b0 && Less(x[1..], y[1..]));
    assert x[1..] == [a1, ':', c0, c1] && y[1..] == [b1, ':', d0, d1];
    assert Less(x[1..], y[1..]) <==> a1 < b1 || (a1 == b1 && Less(x[2..], y[2..])) by {
      assert x[1..][1..] == x[2..] && y[1..][1..] == y[2..];
    }
    assert x[2..] == [':', c0, c1] && y[2..] == [':', d0, d1];
    assert Less(x[2..], y[2..]) <==> Less([c0, c1], [d0, d1]) by {
      assert x[2..][1..] == [c0, c1] && y[2..][1..] == [d0, d1];
    }
    LessPair(c0, c1, d0, d1);
  }

  lemma DigitCharOrder(x: nat, y: nat)
    requires x < 10 && y < 10
    ensures DigitChar(x) < DigitChar(y) <==> x < y
    ensures DigitChar(x) == DigitChar(y) <==> x == y
  {
  }

  /** Two-digit numbers order by tens first, then by units. */
  lemma TwoDigitOrder(x: nat, y: nat)
    ensures x < y <==> x / 10 < y / 10 || (x / 10 == y / 10 && x % 10 < y % 10)
  {
    var q1, r1, q2, r2 := x / 10, x % 10, y / 10, y % 10;
    assert x == 10 * q1 + r1 && y == 10 * q2 + r2;
    if q1 < q2 {
      assert 10 * q1 + 10 <= 10 * q2;
    } else if q2 < q1 {
      assert 10 * q2 + 10 <= 10 * q1;
    }
  }

  lemma Pad2Order(x: nat, y: nat)
    requires x < 100 && y < 100
    ensures Less(Pad2(x), Pad2(y)) <==> x < y
  {
    Pad2Small(x);
    Pad2Small(y);
    LessPair(DigitChar(x / 10), DigitChar(x % 10), DigitChar(y / 10), DigitChar(y % 10));
    DigitCharOrder(x / 10, y / 10);
    DigitCharOrder(x % 10, y % 10);
    TwoDigitOrder(x, y);
  }

  /** Minutes below an hour order times by hour first, then by minute. */
  lemma MinuteOrder(h1: nat, m1: nat, h2: nat, m2: nat)
    requires m1 < 60 && m2 < 60
    ensures 60 * h1 + m1 < 60 * h2 + m2 <==> h1 < h2 || (h1 == h2 && m1 < m2)
  {
    if h1 < h2 {
      assert 60 * h1 + 60 <= 60 * h2;
    } else if h2 < h1 {
      assert 60 * h2 + 60 <= 60 * h1;
    }
  }

  /** An hour and a minute below 60 are determined by their minute count. */
  lemma MinuteFields(h1: nat, m1: nat, h2: nat, m2: nat)
    requires m1 < 60 && m2 < 60 && 60 * h1 + m1 == 60 * h2 + m2
    ensures h1 == h2 && m1 == m2
  {
    MinuteOrder(h1, m1, h2, m2);
    MinuteOrder(h2, m2, h1, m1);
  }

  /** On zero-padded labels, JavaScript's string order is the order of the
      times they denote. */
  lemma FormatHMOrder(h1: nat, m1: nat, h2: nat, m2: nat)
    requires h1 < 100 && h2 < 100 && m1 < 60 && m2 < 60
    ensures Less(FormatHM(h1, m1), FormatHM(h2, m2)) <==> 60 * h1 + m1 < 60 * h2 + m2
  {
    LabelDigits(h1, m1);
    LabelDigits(h2, m2);
    LessLabel(DigitChar(h1 / 10), DigitChar(h1 % 10), DigitChar(m1 / 10), DigitChar(m1 % 10),
              DigitChar(h2 / 10), DigitChar(h2 % 10), DigitChar(m2 / 10), DigitChar(m2 % 10));
    DigitCharOrder(h1 / 10, h2 / 10);
    DigitCharOrder(h1 % 10, h2 % 10);
    DigitCharOrder(m1 / 10, m2 / 10);
    DigitCharOrder(m1 % 10, m2 % 10);
    TwoDigitOrder(h1, h2);
    TwoDigitOrder(m1, m2);
    assert h1 == h2 <==> h1 / 10 == h2 / 10 && h1 % 10 == h2 % 10;
    MinuteOrder(h1, m1, h2, m2);
  }

  /** The five characters of a label with two-digit fields. */
  lemma LabelDigits(h: nat, m: nat)
    requires h < 100 && m < 100
    ensures FormatHM(h, m) == [DigitChar(h / 10), DigitChar(h % 10), ':', DigitChar(m / 10), DigitChar(m % 10)]
  {
    Pad2Small(h);
    Pad2Small(m);
  }

  /** The same fact stated on labels themselves. */
  lemma ClockLabelOrder(a: string, b: string)
    requires IsClockLabel(a) && IsClockLabel(b)
    ensures Less(a, b) <==> MinuteOfDay(a) < MinuteOfDay(b)
  {
    FormatHMOfLabel(a);
    FormatHMOfLabel(b);
    FormatHMOrder(HoursOf(a), MinutesOf(a), HoursOf(b), MinutesOf(b));
  }
}
