/**
 * The text from which an imported row's dedupe key is hashed: five fields joined by '|', of which only
 * the last may itself contain the separator.
 */
module DedupeKey {
  import opened Wrappers

  /** A UTC timestamp as the parser produces it; a numeric cell below 1 gives a time without a date. */
  datatype DateTime =
    | DateTime(year: nat, month: nat, day: nat, hour: nat, minute: nat, second: nat, micro: nat)
    | TimeOfDay(hour: nat, minute: nat, second: nat, micro: nat)

  predicate ValidDateTime(t: DateTime) {
    && (t.DateTime? ==> t.year < 10000 && t.month < 100 && t.day < 100)
    && t.hour < 100 && t.minute < 100 && t.second < 100 && t.micro < 1000000
  }

  /**
   * A Decimal quantized to 0.01, which keeps its sign even when it is zero; a quiet NaN passes through
   * with its sign and diagnostic digits.
   */
  datatype Amount = Amount(negative: bool, cents: nat) | NaN(negative: bool, diagnostic: nat)

  datatype Fields = Fields(sheet: string, row: nat, at: DateTime, amount: Amount, description: Option<string>)

  /* ----- rendering ----- */

  function Digit(d: nat): char
    requires d < 10
  {
    ['0', '1', '2', '3', '4', '5', '6', '7', '8', '9'][d]
  }

  /** `n` in exactly `width` digits. */
  function Pad(n: nat, width: nat): (s: string)
    ensures |s| == width
  {
    if width == 0 then "" else Pad(n / 10, width - 1) + [Digit(n % 10)]
  }

  /** `str(n)`. */
  function Decimal(n: nat): (s: string)
    ensures |s| > 0
  {
    if n < 10 then [Digit(n)] else Decimal(n / 10) + [Digit(n % 10)]
  }

  function ClockTime(hour: nat, minute: nat, second: nat): string {
    Pad(hour, 2) + ":" + Pad(minute, 2) + ":" + Pad(second, 2)
  }

  function Fraction(micro: nat): string {
    if micro == 0 then "" else "." + Pad(micro, 6)
  }

  function IsoClock(t: DateTime): string {
    ClockTime(t.hour, t.minute, t.second) + Fraction(t.micro) + "+00:00"
  }

  function DateText(year: nat, month: nat, day: nat): string {
    Pad(year, 4) + "-" + Pad(month, 2) + "-" + Pad(day, 2) + "T"
  }

  function IsoDate(t: DateTime): string
    requires t.DateTime?
  {
    DateText(t.year, t.month, t.day)
  }

  /** `isoformat()` of a UTC timestamp, or of a time. */
  function IsoFormat(t: DateTime): string {
    if t.DateTime? then IsoDate(t) + IsoClock(t) else IsoClock(t)
  }

  function Sign(negative: bool): string {
    if negative then "-" else ""
  }

  function Signed(negative: bool, n: nat): string {
    Sign(negative) + Decimal(n)
  }

  function Diagnostic(n: nat): string {
    if n == 0 then "" else Decimal(n)
  }

  /** `format(value, "f")`. */
  function FormatAmount(a: Amount): string {
    match a
    case Amount(negative, cents) => Signed(negative, cents / 100) + "." + Pad(cents % 100, 2)
    case NaN(negative, diagnostic) => Sign(negative) + "NaN" + Diagnostic(diagnostic)
  }

  function DescriptionText(d: Option<string>): string {
    if d.None? then "" else d.value
  }

  /** The payload that is hashed. */
  function Payload(f: Fields): string {
    f.sheet + "|" + (Decimal(f.row) + "|" + (IsoFormat(f.at) + "|" + (FormatAmount(f.amount) + "|"
    + DescriptionText(f.description))))
  }

  predicate Plain(s: string) {
    '|' !in s
  }

  /** The sheet name does not contain the separator, and a description is absent or has text. */
  predicate Proper(f: Fields) {
    Plain(f.sheet) && ValidDateTime(f.at) && (f.description.Some? ==> f.description.value != "")
  }

  /* ----- no field but the last contains the separator ----- */

  lemma {:induction false} PadPlain(n: nat, width: nat)
    ensures Plain(Pad(n, width)) && '.' !in Pad(n, width) && 'N' !in Pad(n, width)
  {
    if width > 0 { PadPlain(n / 10, width - 1); }
  }

  lemma {:induction false} DecimalPlain(n: nat)
    ensures Plain(Decimal(n)) && '.' !in Decimal(n) && '-' !in Decimal(n) && 'N' !in Decimal(n)
  {
    if n >= 10 { DecimalPlain(n / 10); }
  }

  lemma IsoClockPlain(t: DateTime)
    ensures Plain(IsoClock(t))
  {
    PadPlain(t.hour, 2);
    PadPlain(t.minute, 2);
    PadPlain(t.second, 2);
    PadPlain(t.micro, 6);
  }

  lemma IsoFormatPlain(t: DateTime)
    ensures Plain(IsoFormat(t))
  {
    IsoClockPlain(t);
    if t.DateTime? {
      PadPlain(t.year, 4);
      PadPlain(t.month, 2);
      PadPlain(t.day, 2);
      assert Plain(IsoDate(t));
    }
  }

  lemma FormatAmountPlain(a: Amount)
    ensures Plain(FormatAmount(a))
    ensures a.NaN? <==> 'N' in FormatAmount(a)
  {
    match a
    case Amount(negative, cents) =>
      DecimalPlain(cents / 100);
      PadPlain(cents % 100, 2);
    case NaN(negative, diagnostic) =>
      DecimalPlain(diagnostic);
      assert FormatAmount(a)[|Sign(negative)|] == 'N';
  }

  /* ----- each rendering can be read back ----- */

  function Value(s: string): int {
    if s == "" then 0 else Value(s[..|s| - 1]) * 10 + (s[|s| - 1] as int - '0' as int)
  }

  lemma DigitValue(d: nat)
    requires d < 10
    ensures Digit(d) as int - '0' as int == d
  {
  }

  function Pow10(k: nat): nat {
    if k == 0 then 1 else 10 * Pow10(k - 1)
  }

  lemma {:induction false} PadReadsBack(n: nat, width: nat)
    requires n < Pow10(width)
    ensures Value(Pad(n, width)) == n
  {
    if width > 0 {
      PadReadsBack(n / 10, width - 1);
      DigitValue(n % 10);
      assert Pad(n, width)[..width - 1] == Pad(n / 10, width - 1);
    }
  }

  lemma {:induction false} DecimalReadsBack(n: nat)
    ensures Value(Decimal(n)) == n
  {
    DigitValue(n % 10);
    if n >= 10 {
      DecimalReadsBack(n / 10);
      assert Decimal(n)[..|Decimal(n)| - 1] == Decimal(n / 10);
    } else {
      assert Decimal(n)[..0] == "";
    }
  }

  lemma ClockSlices(a: string, b: string, c: string, rest: string)
    requires |a| == |b| == |c| == 2
    ensures var s := a + ":" + b + ":" + c + rest;
            s[..2] == a && s[2] == ':' && s[3..5] == b && s[5] == ':' && s[6..8] == c && s[8..] == rest
  {
  }

  lemma FractionSlices(head: string, micros: string, offset: string)
    requires |head| == 8 && |micros| == 6
    ensures var s := head + ("." + micros + offset);
            s[..8] == head && s[8] == '.' && s[9..15] == micros && s[15..] == offset
  {
  }

  /** The end of a time's text: the microseconds, if there are any, and the offset. */
  predicate ReadsFraction(s: string, micro: nat) {
    && |s| >= 14
    && (micro == 0 ==> s[8..] == "+00:00")
    && (micro != 0 ==> |s| == 21 && s[8] == '.' && Value(s[9..15]) == micro && s[15..] == "+00:00")
  }

  lemma FractionReadsBack(head: string, micro: nat)
    requires |head| == 8 && micro < 1000000
    ensures ReadsFraction(head + (Fraction(micro) + "+00:00"), micro)
  {
    if micro == 0 {
      assert (head + ("" + "+00:00"))[8..] == "+00:00";
    } else {
      assert Pow10(6) == 1000000;
      PadReadsBack(micro, 6);
      FractionSlices(head, Pad(micro, 6), "+00:00");
    }
  }

  /** A time's text: hour, minute and second, and what follows them. */
  predicate ReadsClock(s: string, t: DateTime) {
    && ReadsFraction(s, t.micro) && s[2] == ':' && s[5] == ':'
    && Value(s[..2]) == t.hour && Value(s[3..5]) == t.minute && Value(s[6..8]) == t.second
  }

  lemma ClockOf(a: string, b: string, c: string, rest: string, t: DateTime)
    requires |a| == |b| == |c| == 2 && Value(a) == t.hour && Value(b) == t.minute && Value(c) == t.second
    requires ReadsFraction(a + ":" + b + ":" + c + rest, t.micro)
    ensures ReadsClock(a + ":" + b + ":" + c + rest, t)
  {
    ClockSlices(a, b, c, rest);
  }

  lemma Associates<T>(a: seq<T>, b: seq<T>, c: seq<T>)
    ensures a + b + c == a + (b + c)
  {
  }

  lemma ClockReadsBack(t: DateTime)
    requires ValidDateTime(t)
    ensures ReadsClock(IsoClock(t), t)
  {
    assert Pow10(2) == 100;
    PadReadsBack(t.hour, 2);
    PadReadsBack(t.minute, 2);
    PadReadsBack(t.second, 2);
    var head := ClockTime(t.hour, t.minute, t.second);
    Associates(head, Fraction(t.micro), "+00:00");
    FractionReadsBack(head, t.micro);
    ClockOf(Pad(t.hour, 2), Pad(t.minute, 2), Pad(t.second, 2), Fraction(t.micro) + "+00:00", t);
  }

  lemma DateSlices(y: string, m: string, d: string, rest: string)
    requires |y| == 4 && |m| == |d| == 2
    ensures var s := y + "-" + m + "-" + d + "T" + rest;
            && s[..4] == y && s[5..7] == m && s[8..10] == d && s[11..] == rest
            && s[4] == '-' && s[7] == '-' && s[10] == 'T'
  {
  }

  /** The text of a timestamp reads as its date, where it has one, and its time. */
  lemma IsoReadsBack(t: DateTime)
    requires ValidDateTime(t)
    ensures var s := IsoFormat(t);
            && (t.TimeOfDay? ==> ReadsClock(s, t))
            && (t.DateTime? ==>
                  && |s| >= 11 && s[4] == '-' && s[7] == '-' && s[10] == 'T' && ReadsClock(s[11..], t)
                  && Value(s[..4]) == t.year && Value(s[5..7]) == t.month && Value(s[8..10]) == t.day)
  {
    ClockReadsBack(t);
    if t.DateTime? {
      assert Pow10(2) == 100 && Pow10(4) == 10000;
      PadReadsBack(t.year, 4);
      PadReadsBack(t.month, 2);
      PadReadsBack(t.day, 2);
      var s := Pad(t.year, 4) + "-" + Pad(t.month, 2) + "-" + Pad(t.day, 2) + "T" + IsoClock(t);
      DateSlices(Pad(t.year, 4), Pad(t.month, 2), Pad(t.day, 2), IsoClock(t));
      assert IsoFormat(t) == s;
    }
  }

  /** The text of an amount: its sign, its units, a point and two digits for its cents. */
  predicate ReadsAmount(s: string, negative: bool, units: nat, cents: nat) {
    var from, point := if negative then 1 else 0, |s| - 3;
    && point > from && s[point] == '.' && (negative <==> s[0] == '-')
    && Value(s[from..point]) == units && Value(s[point + 1..]) == cents
  }

  lemma InThree(a: string, b: string, c: string)
    ensures (a + b + c)[|a|..|a| + |b|] == b && (a + b + c)[|a| + |b|..] == c
  {
  }

  lemma AmountOf(negative: bool, units: string, cents: string, u: nat, c: nat)
    requires units != "" && '-' !in units && |cents| == 2 && Value(units) == u && Value(cents) == c
    ensures ReadsAmount(Sign(negative) + units + "." + cents, negative, u, c)
  {
    var sign := Sign(negative);
    var s, point := sign + units + "." + cents, |sign| + |units|;
    InThree(sign, units, "." + cents);
    InThree(sign + units, ".", cents);
    Associates(sign + units, ".", cents);
    assert s[|sign|..point] == units && s[point + 1..] == cents && s[|sign|] == units[0];
  }

  lemma AmountReadsBack(a: Amount)
    requires a.Amount?
    ensures ReadsAmount(FormatAmount(a), a.negative, a.cents / 100, a.cents % 100)
  {
    assert Pow10(2) == 100;
    DecimalReadsBack(a.cents / 100);
    PadReadsBack(a.cents % 100, 2);
    DecimalPlain(a.cents / 100);
    AmountOf(a.negative, Decimal(a.cents / 100), Pad(a.cents % 100, 2), a.cents / 100, a.cents % 100);
  }

  lemma PadInjective(m: nat, n: nat, width: nat)
    requires m < Pow10(width) && n < Pow10(width) && Pad(m, width) == Pad(n, width)
    ensures m == n
  {
    PadReadsBack(m, width);
    PadReadsBack(n, width);
  }

  /** Text up to the first occurrence of a separator is determined by the whole. */
  lemma {:induction false} SplitOnce(sep: char, a: string, b: string, a': string, b': string)
    requires sep !in a && sep !in a' && a + [sep] + b == a' + [sep] + b'
    ensures a == a' && b == b'
  {
    var s := a + [sep] + b;
    assert s[|a|] == sep && s[|a'|] == sep;
    assert forall i :: 0 <= i < |a| ==> s[i] == a[i] != sep;
    assert forall i :: 0 <= i < |a'| ==> s[i] == a'[i] != sep;
    assert a == s[..|a|] && a' == s[..|a'|];
    assert b == s[|a| + 1..] && b' == s[|a'| + 1..];
  }

  lemma SignedInjective(p: bool, m: nat, q: bool, n: nat)
    requires Signed(p, m) == Signed(q, n)
    ensures p == q && m == n
  {
    DecimalPlain(m);
    DecimalPlain(n);
    assert Decimal(m)[0] in Decimal(m) && Decimal(n)[0] in Decimal(n);
    assert p <==> Signed(p, m)[0] == '-';
    assert q <==> Signed(q, n)[0] == '-';
    assert Decimal(m) == Signed(p, m)[if p then 1 else 0..];
    assert Decimal(n) == Signed(q, n)[if q then 1 else 0..];
    DecimalReadsBack(m);
    DecimalReadsBack(n);
  }

  lemma FiniteInjective(a: Amount, b: Amount)
    requires a.Amount? && b.Amount? && FormatAmount(a) == FormatAmount(b)
    ensures a == b
  {
    DecimalPlain(a.cents / 100);
    DecimalPlain(b.cents / 100);
    SplitOnce('.', Signed(a.negative, a.cents / 100), Pad(a.cents % 100, 2),
              Signed(b.negative, b.cents / 100), Pad(b.cents % 100, 2));
    SignedInjective(a.negative, a.cents / 100, b.negative, b.cents / 100);
    assert Pow10(2) == 100;
    PadInjective(a.cents % 100, b.cents % 100, 2);
  }

  lemma DiagnosticReadsBack(n: nat)
    ensures Value(Diagnostic(n)) == n
  {
    DecimalReadsBack(n);
  }

  lemma NaNInjective(a: Amount, b: Amount)
    requires a.NaN? && b.NaN? && FormatAmount(a) == FormatAmount(b)
    ensures a == b
  {
    var s := FormatAmount(a);
    assert a.negative <==> s[0] == '-';
    assert b.negative <==> s[0] == '-';
    assert Diagnostic(a.diagnostic) == s[|Sign(a.negative)| + 3..] == Diagnostic(b.diagnostic);
    DiagnosticReadsBack(a.diagnostic);
    DiagnosticReadsBack(b.diagnostic);
  }

  lemma AmountInjective(a: Amount, b: Amount)
    requires FormatAmount(a) == FormatAmount(b)
    ensures a == b
  {
    FormatAmountPlain(a);
    FormatAmountPlain(b);
    if a.NaN? { NaNInjective(a, b); } else { FiniteInjective(a, b); }
  }

  /** Texts that agree and have tails of one length agree in head and tail. */
  lemma SameTail(a: string, x: string, b: string, y: string)
    requires a + x == b + y && |x| == |y|
    ensures a == b && x == y
  {
    assert a == (a + x)[..|a|] && b == (b + y)[..|b|];
    assert x == (a + x)[|a|..] && y == (b + y)[|b|..];
  }

  lemma ClockTimeInjective(h: nat, m: nat, s: nat, h': nat, m': nat, s': nat)
    requires h < 100 && m < 100 && s < 100 && h' < 100 && m' < 100 && s' < 100
    requires ClockTime(h, m, s) == ClockTime(h', m', s')
    ensures h == h' && m == m' && s == s'
  {
    var hour, hour' := Pad(h, 2) + ":", Pad(h', 2) + ":";
    SameTail(hour + Pad(m, 2) + ":", Pad(s, 2), hour' + Pad(m', 2) + ":", Pad(s', 2));
    SameTail(hour + Pad(m, 2), ":", hour' + Pad(m', 2), ":");
    SameTail(hour, Pad(m, 2), hour', Pad(m', 2));
    SameTail(Pad(h, 2), ":", Pad(h', 2), ":");
    assert Pow10(2) == 100;
    PadInjective(h, h', 2);
    PadInjective(m, m', 2);
    PadInjective(s, s', 2);
  }

  lemma FractionInjective(n: nat, n': nat)
    requires n < 1000000 && n' < 1000000 && Fraction(n) == Fraction(n')
    ensures n == n'
  {
    if n != 0 {
      assert Fraction(n)[1..] == Pad(n, 6) && Fraction(n')[1..] == Pad(n', 6);
      assert Pow10(6) == 1000000;
      PadInjective(n, n', 6);
    }
  }

  lemma ClockLength(t: DateTime)
    ensures |ClockTime(t.hour, t.minute, t.second)| == 8 && |IsoClock(t)| == 14 + |Fraction(t.micro)|
    ensures |Fraction(t.micro)| in {0, 7}
  {
  }

  lemma ClockInjective(t: DateTime, u: DateTime)
    requires ValidDateTime(t) && ValidDateTime(u) && IsoClock(t) == IsoClock(u)
    ensures t.hour == u.hour && t.minute == u.minute && t.second == u.second && t.micro == u.micro
  {
    ClockLength(t);
    ClockLength(u);
    var a, b := ClockTime(t.hour, t.minute, t.second), ClockTime(u.hour, u.minute, u.second);
    SameTail(a + Fraction(t.micro), "+00:00", b + Fraction(u.micro), "+00:00");
    SameTail(a, Fraction(t.micro), b, Fraction(u.micro));
    ClockTimeInjective(t.hour, t.minute, t.second, u.hour, u.minute, u.second);
    FractionInjective(t.micro, u.micro);
  }

  lemma DateInjective(y: nat, m: nat, d: nat, y': nat, m': nat, d': nat)
    requires y < 10000 && m < 100 && d < 100 && y' < 10000 && m' < 100 && d' < 100
    requires DateText(y, m, d) == DateText(y', m', d')
    ensures y == y' && m == m' && d == d'
  {
    var year, year' := Pad(y, 4) + "-", Pad(y', 4) + "-";
    SameTail(year + Pad(m, 2) + "-" + Pad(d, 2), "T", year' + Pad(m', 2) + "-" + Pad(d', 2), "T");
    SameTail(year + Pad(m, 2) + "-", Pad(d, 2), year' + Pad(m', 2) + "-", Pad(d', 2));
    SameTail(year + Pad(m, 2), "-", year' + Pad(m', 2), "-");
    SameTail(year, Pad(m, 2), year', Pad(m', 2));
    SameTail(Pad(y, 4), "-", Pad(y', 4), "-");
    assert Pow10(2) == 100 && Pow10(4) == 10000;
    PadInjective(y, y', 4);
    PadInjective(m, m', 2);
    PadInjective(d, d', 2);
  }

  lemma IsoFormatInjective(t: DateTime, u: DateTime)
    requires ValidDateTime(t) && ValidDateTime(u) && IsoFormat(t) == IsoFormat(u)
    ensures t == u
  {
    ClockLength(t);
    ClockLength(u);
    if t.DateTime? {
      assert |IsoDate(t)| == 11 && u.DateTime? && |IsoDate(u)| == 11;
      SameTail(IsoDate(t), IsoClock(t), IsoDate(u), IsoClock(u));
      DateInjective(t.year, t.month, t.day, u.year, u.month, u.day);
    }
    ClockInjective(t, u);
  }

  /** The payload is uniquely decodable: it determines sheet, row, time, amount and description. */
  lemma PayloadInjective(f: Fields, g: Fields)
    requires Proper(f) && Proper(g) && Payload(f) == Payload(g)
    ensures f == g
  {
    var f4, g4 := DescriptionText(f.description), DescriptionText(g.description);
    var f3, g3 := FormatAmount(f.amount) + "|" + f4, FormatAmount(g.amount) + "|" + g4;
    var f2, g2 := IsoFormat(f.at) + "|" + f3, IsoFormat(g.at) + "|" + g3;
    var f1, g1 := Decimal(f.row) + "|" + f2, Decimal(g.row) + "|" + g2;
    SplitOnce('|', f.sheet, f1, g.sheet, g1);
    DecimalPlain(f.row);
    DecimalPlain(g.row);
    SplitOnce('|', Decimal(f.row), f2, Decimal(g.row), g2);
    IsoFormatPlain(f.at);
    IsoFormatPlain(g.at);
    SplitOnce('|', IsoFormat(f.at), f3, IsoFormat(g.at), g3);
    FormatAmountPlain(f.amount);
    FormatAmountPlain(g.amount);
    SplitOnce('|', FormatAmount(f.amount), f4, FormatAmount(g.amount), g4);
    DecimalReadsBack(f.row);
    DecimalReadsBack(g.row);
    IsoFormatInjective(f.at, g.at);
    AmountInjective(f.amount, g.amount);
  }
}
