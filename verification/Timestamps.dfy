/**
  The two clock layouts the code writes, RFC3339 (whole seconds) and RFC3339Nano
  (fraction with its trailing zeros dropped), always in UTC, and how the string order
  of such stamps compares with the order of the times they name.
 */
module Timestamps {
  import opened Text

  /** A UTC wall-clock reading; fields have their usual widths in section 5.6 of RFC 3339. */
  datatype Clock = Clock(year: nat, month: nat, day: nat, hour: nat, minute: nat, second: nat, nanos: nat)

  function Pow10(w: nat): nat {
    if w == 0 then 1 else 10 * Pow10(w - 1)
  }

  /** Every field fits its width; that the date exists is not needed for the order of stamps. */
  predicate ValidClock(t: Clock) {
    && t.year < Pow10(4) && t.month < Pow10(2) && t.day < Pow10(2)
    && t.hour < Pow10(2) && t.minute < Pow10(2) && t.second < Pow10(2)
    && t.nanos < Pow10(9)
  }

  /** A reading of the clock, as every call takes one. */
  type Reading = t: Clock | ValidClock(t) witness Clock(0, 1, 1, 0, 0, 0, 0)

  predicate SameSecond(a: Clock, b: Clock) {
    a.(nanos := 0) == b.(nanos := 0)
  }

  /** Chronological order to the second: the first differing field decides. */
  predicate SecondBefore(a: Clock, b: Clock) {
    if a.year != b.year then a.year < b.year
    else if a.month != b.month then a.month < b.month
    else if a.day != b.day then a.day < b.day
    else if a.hour != b.hour then a.hour < b.hour
    else if a.minute != b.minute then a.minute < b.minute
    else a.second < b.second
  }

  /** Chronological order to the nanosecond. */
  predicate Before(a: Clock, b: Clock) {
    SecondBefore(a, b) || (SameSecond(a, b) && a.nanos < b.nanos)
  }

  /** Zero-padded decimal of `n`, `w` digits wide. */
  function Digits(n: nat, w: nat): (s: string)
    ensures |s| == w && (forall i | 0 <= i < w :: '0' <= s[i] <= '9')
  {
    if w == 0 then "" else Digits(n / 10, w - 1) + ['0' + (n % 10) as char]
  }

  /** Drops trailing zeros, as RFC3339Nano does with its fraction. */
  function Trim(s: string): string {
    if s != "" && s[|s| - 1] == '0' then Trim(s[..|s| - 1]) else s
  }

  function Seconds(t: Clock): string {
    Digits(t.year, 4) + ("-" + (Digits(t.month, 2) + ("-" + (Digits(t.day, 2) + ("T" +
    (Digits(t.hour, 2) + (":" + (Digits(t.minute, 2) + (":" + Digits(t.second, 2))))))))))
  }

  /** The significant fractional digits of a stamp, possibly none. */
  function Fraction(t: Clock): string {
    Trim(Digits(t.nanos, 9))
  }

  function FractionText(digits: string): string {
    if digits == "" then "" else "." + digits
  }

  /** time.RFC3339 */
  function FormatSeconds(t: Clock): string {
    Seconds(t) + "Z"
  }

  /** time.RFC3339Nano */
  function FormatNano(t: Clock): string {
    Seconds(t) + (FractionText(Fraction(t)) + "Z")
  }

  /** Year-month-dayThour:minute:second, each field padded to its width. */
  predicate Spells(s: string, t: Clock) {
    && |s| == 19
    && s[..4] == Digits(t.year, 4) && s[4] == '-' && s[5..7] == Digits(t.month, 2) && s[7] == '-'
    && s[8..10] == Digits(t.day, 2) && s[10] == 'T' && s[11..13] == Digits(t.hour, 2) && s[13] == ':'
    && s[14..16] == Digits(t.minute, 2) && s[16] == ':' && s[17..] == Digits(t.second, 2)
  }

  lemma SecondsSpelled(t: Clock)
    ensures Spells(Seconds(t), t)
  {
    var s := Seconds(t);
    assert s[..4] == Digits(t.year, 4) && s[5..7] == Digits(t.month, 2) && s[8..10] == Digits(t.day, 2);
    assert s[11..13] == Digits(t.hour, 2) && s[14..16] == Digits(t.minute, 2) && s[17..] == Digits(t.second, 2);
  }

  lemma SecondsShape(t: Clock)
    ensures var s := FormatSeconds(t); |s| == 20 && Spells(s[..19], t) && s[19] == 'Z'
  {
    SecondsSpelled(t);
    assert FormatSeconds(t)[..19] == Seconds(t);
  }

  /** The nano layout spells the second too, then the fraction unless it is zero, and ends in 'Z'. */
  lemma NanoShape(t: Clock)
    requires ValidClock(t)
    ensures var s := FormatNano(t);
            && |s| >= 20 && Spells(s[..19], t) && s[|s| - 1] == 'Z'
            && (|s| == 20 <==> t.nanos == 0)
            && (t.nanos != 0 ==> s[19] == '.' && |s| <= 30 && s[|s| - 2] != '0' &&
                                 s[20..|s| - 1] + Zeros(30 - |s|) == Digits(t.nanos, 9))
  {
    SecondsSpelled(t);
    var s, f := FormatNano(t), Fraction(t);
    assert s[..19] == Seconds(t) && s[19..] == FractionText(f) + "Z";
    TrimShape(Digits(t.nanos, 9));
    FractionOrder(t, t.(nanos := 0));
    ZeroFraction(t.(nanos := 0));
    if t.nanos != 0 {
      assert s[20..|s| - 1] == f && s[|s| - 2] == f[|f| - 1];
    }
  }

  predicate ProperPrefix(a: string, b: string) {
    |a| < |b| && b[..|a|] == a
  }

  // ── Fixed-width decimals ──────────────────────────────────────────────────

  lemma {:induction false} DigitsOrder(a: nat, b: nat, w: nat)
    requires a < Pow10(w) && b < Pow10(w)
    ensures Less(Digits(a, w), Digits(b, w)) <==> a < b
    ensures Digits(a, w) == Digits(b, w) <==> a == b
  {
    if w != 0 {
      DigitsOrder(a / 10, b / 10, w - 1);
      var x, y := ['0' + (a % 10) as char], ['0' + (b % 10) as char];
      LessAppend(Digits(a / 10, w - 1), Digits(b / 10, w - 1), x, y);
      assert Digits(a, w)[..w - 1] == Digits(a / 10, w - 1) && Digits(a, w)[w - 1] == x[0];
      assert Digits(b, w)[..w - 1] == Digits(b / 10, w - 1) && Digits(b, w)[w - 1] == y[0];
      assert Less(x, y) <==> a % 10 < b % 10;
    }
  }

  /** One field in front of a common separator and a rest. */
  lemma FieldOrder(a: nat, b: nat, w: nat, sep: string, x: string, y: string)
    requires a < Pow10(w) && b < Pow10(w)
    ensures Less(Digits(a, w) + (sep + x), Digits(b, w) + (sep + y)) <==> a < b || (a == b && Less(x, y))
    ensures Digits(a, w) + (sep + x) == Digits(b, w) + (sep + y) <==> a == b && x == y
  {
    DigitsOrder(a, b, w);
    LessAppend(Digits(a, w), Digits(b, w), sep + x, sep + y);
    LessAppend(sep, sep, x, y);
    LessIrreflexive(sep);
    var l, r := Digits(a, w) + (sep + x), Digits(b, w) + (sep + y);
    assert l[..w] == Digits(a, w) && r[..w] == Digits(b, w);
    assert l[w + |sep|..] == x && r[w + |sep|..] == y;
  }

  lemma SecondsOrder(a: Clock, b: Clock)
    requires ValidClock(a) && ValidClock(b)
    ensures |Seconds(a)| == |Seconds(b)|
    ensures Less(Seconds(a), Seconds(b)) <==> SecondBefore(a, b)
    ensures Seconds(a) == Seconds(b) <==> SameSecond(a, b)
  {
    var a5, b5 := Digits(a.second, 2), Digits(b.second, 2);
    DigitsOrder(a.second, b.second, 2);
    var a4, b4 := Digits(a.minute, 2) + (":" + a5), Digits(b.minute, 2) + (":" + b5);
    FieldOrder(a.minute, b.minute, 2, ":", a5, b5);
    var a3, b3 := Digits(a.hour, 2) + (":" + a4), Digits(b.hour, 2) + (":" + b4);
    FieldOrder(a.hour, b.hour, 2, ":", a4, b4);
    var a2, b2 := Digits(a.day, 2) + ("T" + a3), Digits(b.day, 2) + ("T" + b3);
    FieldOrder(a.day, b.day, 2, "T", a3, b3);
    var a1, b1 := Digits(a.month, 2) + ("-" + a2), Digits(b.month, 2) + ("-" + b2);
    FieldOrder(a.month, b.month, 2, "-", a2, b2);
    FieldOrder(a.year, b.year, 4, "-", a1, b1);
  }

  /**
    Whole-second stamps compare as strings exactly as they do in time, so the string
    fence of an event query is a chronological fence.
   */
  lemma SecondStampsOrder(a: Clock, b: Clock)
    requires ValidClock(a) && ValidClock(b)
    ensures Less(FormatSeconds(a), FormatSeconds(b)) <==> SecondBefore(a, b)
    ensures FormatSeconds(a) == FormatSeconds(b) <==> SameSecond(a, b)
  {
    SecondsOrder(a, b);
    LessAppend(Seconds(a), Seconds(b), "Z", "Z");
    LessIrreflexive("Z");
    assert FormatSeconds(a)[..|Seconds(a)|] == Seconds(a);
    assert FormatSeconds(b)[..|Seconds(b)|] == Seconds(b);
  }

  // ── Fractions without trailing zeros ──────────────────────────────────────

  predicate Trimmed(s: string) {
    s != "" ==> s[|s| - 1] != '0'
  }

  function Zeros(n: nat): (z: string)
    ensures |z| == n && (forall i | 0 <= i < n :: z[i] == '0')
  {
    seq(n, _ => '0')
  }

  lemma ZeroMore(a: string, n: nat)
    ensures a + Zeros(n) + ['0'] == a + Zeros(n + 1)
  {
    assert Zeros(n) + ['0'] == Zeros(n + 1);
  }

  lemma {:induction false} TrimShape(s: string)
    ensures |Trim(s)| <= |s| && Trimmed(Trim(s))
    ensures s == Trim(s) + Zeros(|s| - |Trim(s)|)
    ensures s[..|Trim(s)|] == Trim(s)
  {
    if s != "" && s[|s| - 1] == '0' {
      var t := s[..|s| - 1];
      TrimShape(t);
      ZeroMore(Trim(t), |t| - |Trim(t)|);
      assert s == t + ['0'];
    } else {
      assert s == s + Zeros(0);
    }
  }

  lemma {:induction false} ZerosLeast(n: nat, b: string, m: nat)
    requires b != "" && Trimmed(b) && n == |b| + m
    requires forall i | 0 <= i < |b| :: '0' <= b[i]
    ensures Less(Zeros(n), b + Zeros(m))
    decreases n
  {
    var z, c := Zeros(n), b + Zeros(m);
    assert c[0] == b[0];
    if b[0] == '0' {
      ZerosLeast(n - 1, b[1..], m);
      assert z[1..] == Zeros(n - 1) && c[1..] == b[1..] + Zeros(m);
    }
  }

  /** Padding two trimmed fractions to one width with zeros keeps their order. */
  lemma {:induction false} PadOrder(a: string, b: string, n: nat)
    requires Trimmed(a) && Trimmed(b) && |a| <= n && |b| <= n
    requires forall i | 0 <= i < |a| :: '0' <= a[i]
    requires forall i | 0 <= i < |b| :: '0' <= b[i]
    ensures Less(a + Zeros(n - |a|), b + Zeros(n - |b|)) <==> Less(a, b)
    decreases n
  {
    var x, y := a + Zeros(n - |a|), b + Zeros(n - |b|);
    if a == b {
      LessIrreflexive(a);
      LessIrreflexive(x);
    } else if a == "" {
      assert x == Zeros(n);
      ZerosLeast(n, b, n - |b|);
    } else if b == "" {
      assert y == Zeros(n);
      ZerosLeast(n, a, n - |a|);
      LessTotal(x, y);
    } else {
      assert x[0] == a[0] && y[0] == b[0];
      if a[0] == b[0] {
        PadOrder(a[1..], b[1..], n - 1);
        assert x[1..] == a[1..] + Zeros(n - |a|) && y[1..] == b[1..] + Zeros(n - |b|);
      }
    }
  }

  /**
    A closing 'Z' sorts after every digit and after '.', so it reverses exactly the
    pairs where one fraction is a proper prefix of the other.
   */
  lemma {:induction false} ClosingZ(a: string, b: string)
    requires forall i | 0 <= i < |a| :: a[i] < 'Z'
    requires forall i | 0 <= i < |b| :: b[i] < 'Z'
    ensures Less(a + "Z", b + "Z") <==>
            (Less(a, b) && !ProperPrefix(a, b)) || (Less(b, a) && ProperPrefix(b, a))
  {
    var x, y := a + "Z", b + "Z";
    if a == "" || b == "" {
      assert a == "" ==> x == "Z";
      assert b == "" ==> y == "Z";
      assert a == b ==> !Less("Z"[1..], "Z"[1..]);
      assert a != "" ==> x[0] == a[0];
      assert b != "" ==> y[0] == b[0];
      assert b[..0] == "" && a[..0] == "";
    } else {
      assert x[0] == a[0] && y[0] == b[0];
      assert x[1..] == a[1..] + "Z" && y[1..] == b[1..] + "Z";
      if a[0] == b[0] {
        ClosingZ(a[1..], b[1..]);
        PrefixStep(a, b);
        PrefixStep(b, a);
      } else {
        PrefixHead(a, b);
        PrefixHead(b, a);
      }
    }
  }

  lemma PrefixHead(a: string, b: string)
    requires a != "" && b != "" && a[0] != b[0]
    ensures !ProperPrefix(a, b)
  {
    assert |a| < |b| ==> b[..|a|][0] == b[0];
  }

  lemma PrefixStep(a: string, b: string)
    requires a != "" && b != "" && a[0] == b[0]
    ensures ProperPrefix(a, b) <==> ProperPrefix(a[1..], b[1..])
  {
    if |a| < |b| {
      assert b[..|a|] == [b[0]] + b[1..][..|a| - 1];
      assert a == [a[0]] + a[1..];
      assert b[..|a|][1..] == b[1..][..|a| - 1];
    }
  }

  lemma TrimOrder(x: string, y: string)
    requires |x| == |y|
    requires forall i | 0 <= i < |x| :: '0' <= x[i]
    requires forall i | 0 <= i < |y| :: '0' <= y[i]
    ensures Less(Trim(x), Trim(y)) <==> Less(x, y)
    ensures Trim(x) == Trim(y) <==> x == y
  {
    TrimPads(x, |x|);
    TrimPads(y, |x|);
    TrimLow(x);
    TrimLow(y);
    PaddedOrder(Trim(x), Trim(y), x, y, |x|);
  }

  lemma PaddedOrder(a: string, b: string, x: string, y: string, n: nat)
    requires Trimmed(a) && Trimmed(b) && |a| <= n && |b| <= n
    requires forall i | 0 <= i < |a| :: '0' <= a[i]
    requires forall i | 0 <= i < |b| :: '0' <= b[i]
    requires a + Zeros(n - |a|) == x && b + Zeros(n - |b|) == y
    ensures Less(a, b) <==> Less(x, y)
  {
    PadOrder(a, b, n);
  }

  /** Zeros up to the old width undo the trimming. */
  lemma TrimPads(x: string, n: nat)
    requires |x| == n
    ensures |Trim(x)| <= n && Trimmed(Trim(x)) && Trim(x) + Zeros(n - |Trim(x)|) == x
  {
    TrimShape(x);
  }

  lemma TrimLow(x: string)
    requires forall i | 0 <= i < |x| :: '0' <= x[i]
    ensures forall i | 0 <= i < |Trim(x)| :: '0' <= Trim(x)[i]
  {
    TrimShape(x);
    var a := Trim(x);
    forall i | 0 <= i < |a| ensures '0' <= a[i] {
      assert a[i] == x[..|a|][i];
    }
  }

  lemma {:induction false} ZeroDigits(w: nat)
    ensures forall i | 0 <= i < w :: Digits(0, w)[i] == '0'
  {
    if w != 0 {
      ZeroDigits(w - 1);
    }
  }

  lemma ZeroFraction(t: Clock)
    requires t.nanos == 0
    ensures Fraction(t) == ""
  {
    ZeroDigits(9);
    TrimShape(Digits(0, 9));
  }

  lemma FractionOrder(a: Clock, b: Clock)
    requires ValidClock(a) && ValidClock(b)
    ensures Less(Fraction(a), Fraction(b)) <==> a.nanos < b.nanos
    ensures Fraction(a) == Fraction(b) <==> a.nanos == b.nanos
  {
    DigitsOrder(a.nanos, b.nanos, 9);
    TrimOrder(Digits(a.nanos, 9), Digits(b.nanos, 9));
  }

  /** ".digitsZ" and "Z" compare like "digitsZ" and "Z". */
  lemma FractionTextOrder(p: string, q: string)
    requires forall i | 0 <= i < |p| :: '0' <= p[i] <= '9'
    requires forall i | 0 <= i < |q| :: '0' <= q[i] <= '9'
    ensures Less(FractionText(p) + "Z", FractionText(q) + "Z") <==> Less(p + "Z", q + "Z")
  {
    var x, y := FractionText(p) + "Z", FractionText(q) + "Z";
    if p != "" && q != "" {
      assert x[1..] == p + "Z" && y[1..] == q + "Z" && x[0] == y[0] == '.';
    } else {
      assert p != "" ==> x[0] == '.' && (p + "Z")[0] == p[0];
      assert q != "" ==> y[0] == '.' && (q + "Z")[0] == q[0];
    }
  }

  /** The earlier stamp's fraction starts the later one's, in the same second. */
  predicate Misordered(a: Clock, b: Clock) {
    SameSecond(a, b) && ProperPrefix(Fraction(a), Fraction(b))
  }

  /**
    The exact string order of RFC3339Nano stamps: chronological, except that two stamps
    of one second swap when the earlier fraction is a proper prefix of the later one.
   */
  lemma NanoStampsOrder(a: Clock, b: Clock)
    requires ValidClock(a) && ValidClock(b)
    ensures Less(FormatNano(a), FormatNano(b)) <==>
            (Before(a, b) && !Misordered(a, b)) || (Before(b, a) && Misordered(b, a))
    ensures FormatNano(a) == FormatNano(b) <==> a == b
  {
    var x, y := FractionText(Fraction(a)) + "Z", FractionText(Fraction(b)) + "Z";
    SecondsOrder(a, b);
    SecondsOrder(b, a);
    LessAppend(Seconds(a), Seconds(b), x, y);
    FractionDigits(a);
    FractionDigits(b);
    FractionTextOrder(Fraction(a), Fraction(b));
    ClosingZ(Fraction(a), Fraction(b));
    FractionOrder(a, b);
    FractionOrder(b, a);
    if FormatNano(a) == FormatNano(b) {
      assert FormatNano(a)[..|Seconds(a)|] == Seconds(a);
      assert FormatNano(b)[..|Seconds(b)|] == Seconds(b);
      assert FormatNano(a)[|Seconds(a)|..] == x && FormatNano(b)[|Seconds(b)|..] == y;
      assert x[..|x| - 1] == FractionText(Fraction(a)) && y[..|y| - 1] == FractionText(Fraction(b));
      assert Fraction(a) != "" ==> FractionText(Fraction(a))[1..] == Fraction(a);
      assert Fraction(b) != "" ==> FractionText(Fraction(b))[1..] == Fraction(b);
    }
  }

  lemma FractionDigits(t: Clock)
    ensures forall i | 0 <= i < |Fraction(t)| :: '0' <= Fraction(t)[i] <= '9'
  {
    TrimShape(Digits(t.nanos, 9));
  }
}
