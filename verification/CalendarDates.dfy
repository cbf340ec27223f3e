/** Calendar dates as text: what a date parser accepts, and when text order is date order. */
module CalendarDates {
  import opened Wrappers

  // ── Text order ──

  /** Code-point order, a proper prefix first. */
  predicate Less(a: string, b: string) {
    b != "" && (a == "" || (if a[0] == b[0] then Less(a[1..], b[1..]) else a[0] < b[0]))
  }

  lemma {:induction false} LessTrichotomy(a: string, b: string)
    ensures !(Less(a, b) && Less(b, a)) && !(Less(a, b) && a == b)
    ensures Less(a, b) || Less(b, a) || a == b
  {
    if a != "" && b != "" && a[0] == b[0] {
      LessTrichotomy(a[1..], b[1..]);
      assert a == [a[0]] + a[1..] && b == [b[0]] + b[1..];
    }
  }

  /** The texts agree up to some place, where the first ends or has the smaller character. */
  ghost predicate FirstDiffers(a: string, b: string, k: nat) {
    k <= |a| && k < |b| && a[..k] == b[..k] && (k == |a| || a[k] < b[k])
  }

  /** One text is before another exactly when it is at the first place they differ. */
  lemma {:induction false} LessIs(a: string, b: string)
    ensures Less(a, b) <==> exists k: nat :: FirstDiffers(a, b, k)
  {
    if a != "" && b != "" && a[0] == b[0] {
      LessIs(a[1..], b[1..]);
      forall k: nat | FirstDiffers(a[1..], b[1..], k) ensures FirstDiffers(a, b, k + 1) {
        assert a[..k + 1] == [a[0]] + a[1..][..k] && b[..k + 1] == [b[0]] + b[1..][..k];
      }
      forall k: nat | FirstDiffers(a, b, k) ensures k > 0 && FirstDiffers(a[1..], b[1..], k - 1) {
        assert a[1..][..k - 1] == a[..k][1..] && b[1..][..k - 1] == b[..k][1..];
      }
    } else {
      assert Less(a, b) ==> FirstDiffers(a, b, 0);
      assert forall k: nat :: FirstDiffers(a, b, k) && k > 0 ==> a[0] == a[..k][0] && b[0] == b[..k][0];
    }
  }

  lemma {:induction false} LessTransitive(a: string, b: string, c: string)
    requires Less(a, b) && Less(b, c)
    ensures Less(a, c)
  {
    if a != "" && a[0] == b[0] == c[0] {
      LessTransitive(a[1..], b[1..], c[1..]);
    }
  }

  /** Fields of equal width compare one after the other. */
  lemma {:induction false} LessByField(a: string, b: string, c: string, d: string)
    requires |a| == |b|
    ensures Less(a + c, b + d) <==> Less(a, b) || (a == b && Less(c, d))
  {
    if a == "" {
      assert a + c == c && b + d == d;
    } else {
      assert (a + c)[1..] == a[1..] + c && (b + d)[1..] == b[1..] + d;
      LessByField(a[1..], b[1..], c, d);
      assert a == [a[0]] + a[1..] && b == [b[0]] + b[1..];
    }
  }

  // ── Digits ──

  predicate IsDigit(c: char) {
    '0' <= c <= '9'
  }

  predicate AllDigits(s: string) {
    forall i :: 0 <= i < |s| ==> IsDigit(s[i])
  }

  function DigitValue(c: char): nat
    requires IsDigit(c)
  {
    c as int - '0' as int
  }

  function Digit(n: nat): (c: char)
    requires n < 10
    ensures IsDigit(c) && DigitValue(c) == n
  {
    ('0' as int + n) as char
  }

  function Pow10(k: nat): (p: nat)
    ensures p >= 1
  {
    if k == 0 then 1 else 10 * Pow10(k - 1)
  }

  /** `n` in exactly `k` digits. */
  function Digits(n: nat, k: nat): (s: string)
    requires n < Pow10(k)
    ensures |s| == k && AllDigits(s)
  {
    if k == 0 then "" else Digits(n / 10, k - 1) + [Digit(n % 10)]
  }

  function Value(s: string): nat
    requires AllDigits(s)
  {
    if s == "" then 0 else 10 * Value(s[..|s| - 1]) + DigitValue(s[|s| - 1])
  }

  lemma {:induction false} ValueOfDigits(n: nat, k: nat)
    requires n < Pow10(k)
    ensures Value(Digits(n, k)) == n
  {
    if k > 0 {
      ValueOfDigits(n / 10, k - 1);
      assert Digits(n, k)[..k - 1] == Digits(n / 10, k - 1);
    }
  }

  lemma {:induction false} DigitsOfValue(s: string)
    requires AllDigits(s)
    ensures Value(s) < Pow10(|s|) && Digits(Value(s), |s|) == s
  {
    if s != "" {
      DigitsOfValue(s[..|s| - 1]);
      assert s == s[..|s| - 1] + [s[|s| - 1]];
    }
  }

  lemma LastDigitOrder(n: nat, m: nat)
    ensures n < m <==> n / 10 < m / 10 || (n / 10 == m / 10 && n % 10 < m % 10)
    ensures n == m <==> n / 10 == m / 10 && n % 10 == m % 10
  {
  }

  lemma DigitOrder(n: nat, m: nat)
    requires n < 10 && m < 10
    ensures Less([Digit(n)], [Digit(m)]) <==> n < m
    ensures Digit(n) == Digit(m) <==> n == m
  {
  }

  /** In a fixed width, text order is number order. */
  lemma {:induction false} DigitsOrder(n: nat, m: nat, k: nat)
    requires n < Pow10(k) && m < Pow10(k)
    ensures Less(Digits(n, k), Digits(m, k)) <==> n < m
    ensures Digits(n, k) == Digits(m, k) <==> n == m
  {
    if k == 0 {
      assert !Less("", "");
    } else {
      hide Less, Digit;
      DigitsOrder(n / 10, m / 10, k - 1);
      LastDigitOrder(n, m);
      DigitOrder(n % 10, m % 10);
      var (a, b) := (Digits(n / 10, k - 1), Digits(m / 10, k - 1));
      LessByField(a, b, [Digit(n % 10)], [Digit(m % 10)]);
      SnocEqual(a, b, Digit(n % 10), Digit(m % 10));
    }
  }

  lemma SnocEqual(a: string, b: string, c: char, d: char)
    requires |a| == |b|
    ensures a + [c] == b + [d] <==> a == b && c == d
  {
    assert (a + [c])[..|a|] == a && (b + [d])[..|b|] == b;
    assert (a + [c])[|a|] == c && (b + [d])[|b|] == d;
  }

  // ── Dates ──

  datatype Day = Day(year: nat, month: nat, day: nat)

  function DaysIn(year: nat, month: nat): nat {
    if month in {4, 6, 9, 11} then 30
    else if month != 2 then 31
    else if year % 4 == 0 && (year % 100 != 0 || year % 400 == 0) then 29
    else 28
  }

  predicate OnCalendar(d: Day) {
    1 <= d.year <= 9999 && 1 <= d.month <= 12 && 1 <= d.day <= DaysIn(d.year, d.month)
  }

  type Date = d: Day | OnCalendar(d) witness Day(1, 1, 1)

  predicate Before(a: Date, b: Date) {
    a.year < b.year || (a.year == b.year && (a.month < b.month || (a.month == b.month && a.day < b.day)))
  }

  /** The zero-padded form, YYYY-MM-DD. */
  function Format(d: Date): (s: string) {
    assert Pow10(4) == 10000 && Pow10(2) == 100;
    Digits(d.year, 4) + "-" + Digits(d.month, 2) + "-" + Digits(d.day, 2)
  }

  datatype Fields = Fields(year: string, month: string, day: string)

  /** Four characters, a dash, one or two characters, a dash, one or two characters. */
  function Split(s: string): (r: Option<Fields>)
    ensures r.Some? ==>
              && var f := r.value;
              s == f.year + "-" + f.month + "-" + f.day && |f.year| == 4 && 1 <= |f.month| <= 2 && 1 <= |f.day| <= 2
  {
    if |s| < 8 || s[4] != '-' then None
    else
      var dash := if s[6] == '-' then 6 else 7;
      if s[dash] != '-' || !(dash + 2 <= |s| <= dash + 3) then None
      else
        var f := Fields(s[..4], s[5..dash], s[dash + 1..]);
        assert s == f.year + "-" + f.month + "-" + f.day;
        Some(f)
  }

  /** A one-digit day may be written after a blank. */
  function DayDigits(day: string): string {
    if |day| == 2 && day[0] == ' ' then day[1..] else day
  }

  function Parse(s: string): (r: Option<Date>) {
    var r := Split(s);
    if r.None? then None
    else
      var f := r.value.(day := DayDigits(r.value.day));
      if !AllDigits(f.year) || !AllDigits(f.month) || !AllDigits(f.day) then None
      else
        var d := Day(Value(f.year), Value(f.month), Value(f.day));
        if OnCalendar(d) then Some(d) else None
  }

  lemma SplitFields(y: string, m: string, t: string)
    requires |y| == 4 && |m| == 2 && m[1] != '-' && |t| == 2
    ensures Split(y + "-" + m + "-" + t) == Some(Fields(y, m, t))
  {
    var s := y + "-" + m + "-" + t;
    assert s[..4] == y && s[5..7] == m && s[8..] == t && s[6] == m[1] && s[7] == '-';
  }

  /** The length of every month. */
  lemma MonthLengths(year: nat, month: nat)
    ensures month in {1, 3, 5, 7, 8, 10, 12} ==> DaysIn(year, month) == 31
    ensures month in {4, 6, 9, 11} ==> DaysIn(year, month) == 30
    ensures month == 2 ==>
              DaysIn(year, month) == if (year % 4 == 0 && year % 100 != 0) || year % 400 == 0 then 29 else 28
  {
  }

  /** Every character of the zero-padded form. */
  lemma FormatText(d: Date)
    ensures Format(d) == [Digit(d.year / 1000), Digit(d.year / 100 % 10), Digit(d.year / 10 % 10), Digit(d.year % 10),
                          '-', Digit(d.month / 10), Digit(d.month % 10), '-', Digit(d.day / 10), Digit(d.day % 10)]
    ensures forall n: nat :: n < 10 ==> Digit(n) == "0123456789"[n]
  {
    assert Pow10(4) == 10000 && Pow10(2) == 100;
    DigitsTwo(d.month);
    DigitsTwo(d.day);
    DigitsTwo(d.year % 100);
    DigitsFour(d.year);
    hide Digits, Digit;
  }

  lemma DigitsTwo(n: nat)
    requires n < 100
    ensures Pow10(2) == 100 && Digits(n, 2) == [Digit(n / 10), Digit(n % 10)]
  {
    assert Digits(n / 10, 1) == [Digit(n / 10)] by { assert Digits(0, 0) == ""; }
  }

  lemma DigitsFour(n: nat)
    requires n < 10000
    ensures Pow10(4) == 10000
    ensures Digits(n, 4) == [Digit(n / 1000), Digit(n / 100 % 10), Digit(n / 10 % 10), Digit(n % 10)]
  {
    assert Pow10(4) == 10000 && Pow10(3) == 1000 && Pow10(2) == 100;
    DigitsTwo(n / 100);
    assert n / 10 / 10 == n / 100 && n / 100 / 10 == n / 1000;
    assert Digits(n / 10, 3) == Digits(n / 100, 2) + [Digit(n / 10 % 10)];
  }

  /** Round trip: the zero-padded form of every date is accepted and read back as that date. */
  lemma ParseFormat(d: Date)
    ensures Parse(Format(d)) == Some(d)
  {
    assert Pow10(4) == 10000 && Pow10(2) == 100;
    ValueOfDigits(d.year, 4);
    ValueOfDigits(d.month, 2);
    ValueOfDigits(d.day, 2);
    hide Digits, Value, Split;
    SplitFields(Digits(d.year, 4), Digits(d.month, 2), Digits(d.day, 2));
  }

  /** Text order on zero-padded dates is date order. */
  lemma FormatOrder(a: Date, b: Date)
    ensures Less(Format(a), Format(b)) <==> Before(a, b)
    ensures Format(a) == Format(b) <==> a == b
  {
    assert Pow10(4) == 10000 && Pow10(2) == 100;
    DigitsOrder(a.year, b.year, 4);
    DigitsOrder(a.month, b.month, 2);
    DigitsOrder(a.day, b.day, 2);
    FormatFields(a, b);
    ParseFormat(a);
    ParseFormat(b);
  }

  lemma FormatFields(a: Date, b: Date)
    ensures Pow10(4) == 10000 && Pow10(2) == 100
    ensures Less(Format(a), Format(b)) <==>
            || Less(Digits(a.year, 4), Digits(b.year, 4))
            || (Digits(a.year, 4) == Digits(b.year, 4)
                && (|| Less(Digits(a.month, 2), Digits(b.month, 2))
                    || (Digits(a.month, 2) == Digits(b.month, 2) && Less(Digits(a.day, 2), Digits(b.day, 2)))))
  {
    assert Pow10(4) == 10000 && Pow10(2) == 100;
    var (y, m, d) := (Digits(a.year, 4), Digits(a.month, 2), Digits(a.day, 2));
    var (y', m', d') := (Digits(b.year, 4), Digits(b.month, 2), Digits(b.day, 2));
    hide Digits, Less;
    assert Format(a) == y + ("-" + (m + ("-" + d))) && Format(b) == y' + ("-" + (m' + ("-" + d')));
    LessByField(y, y', "-" + (m + ("-" + d)), "-" + (m' + ("-" + d')));
    LessByField("-", "-", m + ("-" + d), m' + ("-" + d'));
    LessByField(m, m', "-" + d, "-" + d');
    LessByField("-", "-", d, d');
    LessTrichotomy("-", "-");
  }

  lemma LessAfterPrefix(p: string, a: string, b: string)
    ensures Less(p + a, p + b) <==> Less(a, b)
  {
    LessByField(p, p, a, b);
    LessTrichotomy(p, p);
  }

  /** How an accepted date is written: a field of the full width is the padded one, or the day follows a blank. */
  lemma ParsedShape(s: string, d: Date)
    requires Parse(s) == Some(d)
    ensures Pow10(4) == 10000 && Pow10(2) == 100
    ensures Split(s).Some? && var f := Split(s).value;
            && f.year == Digits(d.year, 4)
            && AllDigits(f.month) && Value(f.month) == d.month
            && (|f.month| == 2 ==> f.month == Digits(d.month, 2))
            && (|f.day| == 1 ==> AllDigits(f.day) && Value(f.day) == d.day)
            && (|f.day| == 2 ==> f.day == Digits(d.day, 2) || f.day[0] == ' ')
  {
    assert Pow10(4) == 10000 && Pow10(2) == 100;
    hide Digits, Value, Split;
    var f := Split(s).value;
    DigitsOfValue(f.year);
    DigitsOfValue(f.month);
    DigitsOfValue(DayDigits(f.day));
  }

  /**
   * The ways to write a date: a full year, a month of two digits or one, and a day of two digits, one,
   * or one after a blank.
   */
  predicate Writes(f: Fields, d: Date) {
    && Pow10(4) == 10000 && Pow10(2) == 100
    && f.year == Digits(d.year, 4)
    && (f.month == Digits(d.month, 2) || (d.month < 10 && f.month == [Digit(d.month)]))
    && (f.day == Digits(d.day, 2) || (d.day < 10 && (f.day == [Digit(d.day)] || f.day == [' ', Digit(d.day)])))
  }

  lemma OneDigitValue(n: nat)
    requires n < 10
    ensures AllDigits([Digit(n)]) && Value([Digit(n)]) == n
  {
    assert [Digit(n)][..0] == "" && Value("") == 0;
  }

  lemma OneDigitText(s: string)
    requires |s| == 1 && AllDigits(s)
    ensures Value(s) < 10 && s == [Digit(Value(s))]
  {
    assert s[..0] == "" && Value("") == 0;
  }

  lemma SplitWritten(f: Fields)
    requires |f.year| == 4 && 1 <= |f.month| <= 2 && (|f.month| == 2 ==> f.month[1] != '-') && 1 <= |f.day| <= 2
    ensures Split(f.year + "-" + f.month + "-" + f.day) == Some(f)
  {
    var s := f.year + "-" + f.month + "-" + f.day;
    var dash := 5 + |f.month|;
    assert s[..4] == f.year && s[5..dash] == f.month && s[dash + 1..] == f.day && s[4] == '-' && s[dash] == '-';
    assert |f.month| == 2 ==> s[6] == f.month[1];
  }

  /** A number in two digits, or in one. */
  lemma TwoOrOne(n: nat, s: string)
    requires n < 100 && Pow10(2) == 100 && (s == Digits(n, 2) || (n < 10 && s == [Digit(n)]))
    ensures 1 <= |s| <= 2 && AllDigits(s) && Value(s) == n && s[0] != ' '
  {
    ValueOfDigits(n, 2);
    if n < 10 {
      OneDigitValue(n);
    }
    assert IsDigit(s[0]);
  }

  lemma WrittenDay(f: Fields, d: Date)
    requires Writes(f, d)
    ensures 1 <= |f.day| <= 2 && AllDigits(DayDigits(f.day)) && Value(DayDigits(f.day)) == d.day
  {
    hide Digits, Value, Digit;
    if f.day == Digits(d.day, 2) || (d.day < 10 && f.day == [Digit(d.day)]) {
      TwoOrOne(d.day, f.day);
    } else {
      assert f.day == [' ', Digit(d.day)] && f.day[1..] == [Digit(d.day)];
      OneDigitValue(d.day);
    }
  }

  lemma WrittenFields(f: Fields, d: Date)
    requires Writes(f, d)
    ensures |f.year| == 4 && AllDigits(f.year) && Value(f.year) == d.year
    ensures 1 <= |f.month| <= 2 && AllDigits(f.month) && Value(f.month) == d.month
    ensures 1 <= |f.day| <= 2 && AllDigits(DayDigits(f.day)) && Value(DayDigits(f.day)) == d.day
  {
    WrittenDay(f, d);
    hide Digits, Value, Digit, DayDigits, DaysIn;
    ValueOfDigits(d.year, 4);
    TwoOrOne(d.month, f.month);
  }

  /** Exactly those texts are accepted, each as the date it writes. */
  lemma ParseIff(s: string, d: Date)
    ensures Parse(s) == Some(d) <==> exists f :: Writes(f, d) && s == f.year + "-" + f.month + "-" + f.day
  {
    hide Digits, Value, Split, Format;
    if Parse(s) == Some(d) {
      ParsedShape(s, d);
      var f := Split(s).value;
      if |f.month| == 1 {
        OneDigitText(f.month);
      }
      OneDigitDay(f, d);
      assert Writes(f, d) && s == f.year + "-" + f.month + "-" + f.day;
    }
    forall f | Writes(f, d) && s == f.year + "-" + f.month + "-" + f.day ensures Parse(s) == Some(d) {
      WrittenFields(f, d);
      NoDash(f);
      SplitWritten(f);
    }
  }

  lemma NoDash(f: Fields)
    requires |f.month| <= 2 && AllDigits(f.month)
    ensures |f.month| == 2 ==> f.month[1] != '-'
  {
    assert |f.month| == 2 ==> IsDigit(f.month[1]);
  }

  lemma OneDigitDay(f: Fields, d: Date)
    requires 1 <= |f.day| <= 2 && AllDigits(DayDigits(f.day)) && Value(DayDigits(f.day)) == d.day
    requires |f.day| == 2 ==> (Pow10(2) == 100 && f.day == Digits(d.day, 2)) || f.day[0] == ' '
    ensures |f.day| == 2 && f.day[0] != ' ' ==> Pow10(2) == 100 && f.day == Digits(d.day, 2)
    ensures |f.day| == 1 ==> d.day < 10 && f.day == [Digit(d.day)]
    ensures |f.day| == 2 && f.day[0] == ' ' ==> d.day < 10 && f.day == [' ', Digit(d.day)]
  {
    hide Digits, Value;
    if |f.day| == 1 || f.day[0] == ' ' {
      OneDigitText(DayDigits(f.day));
    }
  }
}
