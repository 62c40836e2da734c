/** The text form in which the SQLite store keeps its times: RFC3339Nano in UTC,
    "YYYY-MM-DDTHH:MM:SS[.fraction]Z" with the trailing zeros of the fraction trimmed.

    SQL compares and sorts these texts byte by byte. The main result, TextOrder, says exactly
    when that agrees with the order of the times themselves.
*/
module Timestamps {

  import opened Wrappers

  // ---------- Calendar: seconds since 0000-01-01T00:00:00Z and civil fields ----------

  const SECOND := 1_000_000_000
  const DAY := 86400
  // 25 cycles of 400 years: the first day of year 10000.
  const LAST_DAY := 3_652_425

  // LAST_DAY days of 86400 seconds, in nanoseconds.
  const END_OF_TIME := 315_569_520_000_000_000_000

  /** Nanoseconds since the start of year 0, up to the end of year 9999. */
  type Instant = t: int | 0 <= t < END_OF_TIME witness 0

  datatype Civil = Civil(year: nat, month: nat, day: nat, hour: nat, minute: nat, second: nat)

  predicate IsLeap(y: nat) {
    y % 4 == 0 && (y % 100 != 0 || y % 400 == 0)
  }

  function YearDays(y: nat): nat {
    if IsLeap(y) then 366 else 365
  }

  function MonthDays(y: nat, m: nat): nat {
    if m == 2 then (if IsLeap(y) then 29 else 28)
    else if m == 4 || m == 6 || m == 9 || m == 11 then 30
    else 31
  }

  /** Number of days before 1 January of year y. */
  function YearStart(y: nat): nat {
    365 * y + (y + 3) / 4 - (y + 99) / 100 + (y + 399) / 400
  }

  /** Number of days of year y before the first of month m. */
  function MonthStart(y: nat, m: nat): nat
    requires 1 <= m <= 13
  {
    if m == 1 then 0 else MonthStart(y, m - 1) + MonthDays(y, m - 1)
  }

  lemma YearStartStep(y: nat)
    ensures YearStart(y + 1) == YearStart(y) + YearDays(y)
  {
    assert (y + 4) / 4 == (y + 3) / 4 + (if y % 4 == 0 then 1 else 0);
    assert (y + 100) / 100 == (y + 99) / 100 + (if y % 100 == 0 then 1 else 0);
    assert (y + 400) / 400 == (y + 399) / 400 + (if y % 400 == 0 then 1 else 0);
  }

  lemma MonthStartEnd(y: nat)
    ensures MonthStart(y, 13) == YearDays(y)
  {
    assert MonthStart(y, 2) == 31;
    assert MonthStart(y, 4) == MonthStart(y, 2) + MonthDays(y, 2) + 31;
    assert MonthStart(y, 6) == MonthStart(y, 4) + 61;
    assert MonthStart(y, 8) == MonthStart(y, 6) + 61;
    assert MonthStart(y, 10) == MonthStart(y, 8) + 61;
    assert MonthStart(y, 12) == MonthStart(y, 10) + 61;
  }

  /** The year, from `from` on, that holds the given day. */
  function YearOf(day: nat, from: nat): (y: nat)
    requires YearStart(from) <= day
    ensures from <= y && YearStart(y) <= day < YearStart(y + 1)
    decreases day - YearStart(from)
  {
    YearStartStep(from);
    if day < YearStart(from + 1) then from else YearOf(day, from + 1)
  }

  /** The month, from `from` on, that holds the given day of year y. */
  function MonthOf(y: nat, day: nat, from: nat): (m: nat)
    requires 1 <= from <= 12 && MonthStart(y, from) <= day < YearDays(y)
    ensures from <= m <= 12 && MonthStart(y, m) <= day < MonthStart(y, m + 1)
    decreases 12 - from
  {
    MonthStartEnd(y);
    if day < MonthStart(y, from + 1) then from else MonthOf(y, day, from + 1)
  }

  predicate ValidCivil(c: Civil) {
    && c.year < 10000
    && 1 <= c.month <= 12
    && 1 <= c.day <= MonthDays(c.year, c.month)
    && c.hour < 24 && c.minute < 60 && c.second < 60
  }

  function DayNumber(c: Civil): nat
    requires ValidCivil(c)
  {
    YearStart(c.year) + MonthStart(c.year, c.month) + c.day - 1
  }

  function ToSeconds(c: Civil): nat
    requires ValidCivil(c)
  {
    DayNumber(c) * DAY + c.hour * 3600 + c.minute * 60 + c.second
  }

  /** Midnight of the given day. */
  function FromDay(day: nat): (c: Civil)
    requires day < LAST_DAY
    ensures ValidCivil(c)
  {
    var y := YearOf(day, 0);
    YearStartStep(y);
    YearBelow(y, day);
    var m := MonthOf(y, day - YearStart(y), 1);
    assert MonthStart(y, m + 1) == MonthStart(y, m) + MonthDays(y, m);
    Civil(y, m, day - YearStart(y) - MonthStart(y, m) + 1, 0, 0, 0)
  }

  lemma FromDayInverse(day: nat)
    requires day < LAST_DAY
    ensures DayNumber(FromDay(day)) == day
  {
  }

  function AtTime(day: Civil, left: nat): Civil {
    day.(hour := left / 3600, minute := left % 3600 / 60, second := left % 3600 % 60)
  }

  lemma TimeOfDay(left: nat)
    requires left < DAY
    ensures left / 3600 < 24 && left / 3600 * 3600 + left % 3600 / 60 * 60 + left % 3600 % 60 == left
  {
  }

  function FromSeconds(s: nat): (c: Civil)
    requires s < LAST_DAY * DAY
    ensures ValidCivil(c)
  {
    TimeOfDay(s % DAY);
    AtTime(FromDay(s / DAY), s % DAY)
  }

  lemma {:induction false} FromSecondsInverse(s: nat)
    requires s < LAST_DAY * DAY
    ensures ToSeconds(FromSeconds(s)) == s
  {
    FromDayInverse(s / DAY);
    TimeOfDay(s % DAY);
  }

  lemma YearStartMonotone(x: nat, y: nat)
    requires x <= y
    ensures YearStart(x) <= YearStart(y)
    decreases y - x
  {
    if x < y {
      YearStartStep(x);
      YearStartMonotone(x + 1, y);
    }
  }

  lemma YearBelow(y: nat, day: nat)
    requires YearStart(y) <= day < LAST_DAY
    ensures y < 10000
  {
    if y >= 10000 {
      YearStartMonotone(10000, y);
    }
  }

  lemma MonthStartMonotone(y: nat, m: nat, n: nat)
    requires 1 <= m <= n <= 13
    ensures MonthStart(y, m) <= MonthStart(y, n)
    decreases n - m
  {
    if m < n {
      MonthStartMonotone(y, m + 1, n);
    }
  }

  /** Lexicographic order of the civil fields, then `rest`. */
  predicate CivilLess(a: Civil, b: Civil, rest: bool) {
    a.year < b.year || (a.year == b.year &&
    (a.month < b.month || (a.month == b.month &&
    (a.day < b.day || (a.day == b.day &&
    (a.hour < b.hour || (a.hour == b.hour &&
    (a.minute < b.minute || (a.minute == b.minute &&
    (a.second < b.second || (a.second == b.second && rest)))))))))))
  }

  lemma DayOrder(a: Civil, b: Civil)
    requires ValidCivil(a) && ValidCivil(b)
    requires a.year < b.year || (a.year == b.year && a.month < b.month)
    ensures DayNumber(a) < DayNumber(b)
  {
    assert MonthStart(a.year, a.month + 1) == MonthStart(a.year, a.month) + MonthDays(a.year, a.month);
    if a.year < b.year {
      YearStartStep(a.year);
      YearStartMonotone(a.year + 1, b.year);
      MonthStartMonotone(a.year, a.month + 1, 13);
      MonthStartEnd(a.year);
    } else {
      MonthStartMonotone(a.year, a.month + 1, b.month);
    }
  }

  lemma CivilOrderOneWay(a: Civil, b: Civil)
    requires ValidCivil(a) && ValidCivil(b) && CivilLess(a, b, false)
    ensures ToSeconds(a) < ToSeconds(b)
  {
    if a.year < b.year || (a.year == b.year && a.month < b.month) {
      DayOrder(a, b);
    }
  }

  /** The civil fields order the same way as the seconds they stand for. */
  lemma CivilOrder(a: Civil, b: Civil, rest: bool)
    requires ValidCivil(a) && ValidCivil(b)
    ensures CivilLess(a, b, rest) <==> ToSeconds(a) < ToSeconds(b) || (a == b && rest)
    ensures a == b <==> ToSeconds(a) == ToSeconds(b)
  {
    if CivilLess(a, b, false) {
      CivilOrderOneWay(a, b);
    } else if CivilLess(b, a, false) {
      CivilOrderOneWay(b, a);
    }
  }

  // ---------- Text ----------

  /** Byte order of two ASCII texts: what SQL's < does on TEXT columns. */
  predicate TextLess(s: string, t: string) {
    t != "" && (s == "" || s[0] < t[0] || (s[0] == t[0] && TextLess(s[1..], t[1..])))
  }

  function DigitChar(d: nat): char
    requires d < 10
  {
    ['0', '1', '2', '3', '4', '5', '6', '7', '8', '9'][d]
  }

  predicate IsDigit(c: char) {
    '0' <= c <= '9'
  }

  predicate AllDigits(s: string) {
    forall i :: 0 <= i < |s| ==> IsDigit(s[i])
  }

  function Pow10(w: nat): (p: nat)
    ensures p > 0
  {
    if w == 0 then 1 else 10 * Pow10(w - 1)
  }

  /** n in exactly w decimal digits, as %0wd prints it. */
  function Digits(n: nat, w: nat): (s: string)
    ensures |s| == w && AllDigits(s)
  {
    if w == 0 then "" else Digits(n / 10, w - 1) + [DigitChar(n % 10)]
  }

  /** The value of a digit text. */
  function Value(s: string): nat
    requires AllDigits(s)
  {
    if s == "" then 0 else Value(s[..|s| - 1]) * 10 + (s[|s| - 1] - '0') as nat
  }

  predicate AllZeros(s: string) {
    forall i :: 0 <= i < |s| ==> s[i] == '0'
  }

  /** s without its trailing zeros. */
  function TrimZeros(s: string): (t: string)
    ensures t <= s && AllZeros(s[|t|..])
    ensures t != "" ==> t[|t| - 1] != '0'
  {
    if AllZeros(s) then "" else [s[0]] + TrimZeros(s[1..])
  }

  function Fraction(t: Instant): string {
    TrimZeros(Digits(t % SECOND, 9))
  }

  function Tail(fraction: string): string {
    if fraction == "" then "Z" else "." + fraction + "Z"
  }

  /** The civil fields followed by the given rest, each field with its separator. */
  function Stamp(c: Civil, rest: string): string {
    Digits(c.year, 4) + ("-" + (Digits(c.month, 2) + ("-" + (Digits(c.day, 2) + ("T" +
    (Digits(c.hour, 2) + (":" + (Digits(c.minute, 2) + (":" + (Digits(c.second, 2) + rest))))))))))
  }

  function Format(t: Instant): string {
    Stamp(FromSeconds(t / SECOND), Tail(Fraction(t)))
  }

  // ---------- Order of the parts ----------

  lemma {:induction false} LessConcat(p: string, q: string, s: string, t: string)
    requires |p| == |q|
    ensures TextLess(p + s, q + t) <==> TextLess(p, q) || (p == q && TextLess(s, t))
  {
    if p == "" {
      assert p + s == s && q + t == t;
    } else {
      assert (p + s)[1..] == p[1..] + s && (q + t)[1..] == q[1..] + t;
      assert p == q <==> p[0] == q[0] && p[1..] == q[1..];
      LessConcat(p[1..], q[1..], s, t);
    }
  }

  lemma {:induction false} DigitsOrder(x: nat, y: nat, w: nat)
    requires x < Pow10(w) && y < Pow10(w)
    ensures TextLess(Digits(x, w), Digits(y, w)) <==> x < y
    ensures Digits(x, w) == Digits(y, w) <==> x == y
  {
    if w > 0 {
      DigitsOrder(x / 10, y / 10, w - 1);
      var a, b := [DigitChar(x % 10)], [DigitChar(y % 10)];
      LessConcat(Digits(x / 10, w - 1), Digits(y / 10, w - 1), a, b);
      assert TextLess(a, b) <==> x % 10 < y % 10;
      assert Digits(x, w)[w - 1] == DigitChar(x % 10) && Digits(x, w)[..w - 1] == Digits(x / 10, w - 1);
      assert Digits(y, w)[w - 1] == DigitChar(y % 10) && Digits(y, w)[..w - 1] == Digits(y / 10, w - 1);
    }
  }

  lemma FieldOrder(x: nat, y: nat, w: nat, sep: string, s: string, t: string)
    requires x < Pow10(w) && y < Pow10(w)
    ensures TextLess(Digits(x, w) + (sep + s), Digits(y, w) + (sep + t))
       <==> x < y || (x == y && TextLess(s, t))
  {
    DigitsOrder(x, y, w);
    LessConcat(Digits(x, w), Digits(y, w), sep + s, sep + t);
    LessConcat(sep, sep, s, t);
    NotLessSelf(sep);
  }

  lemma NotLessSelf(s: string)
    ensures !TextLess(s, s)
  {
  }

  lemma Pow10Values()
    ensures Pow10(2) == 100 && Pow10(4) == 10_000 && Pow10(9) == SECOND
  {
    assert Pow10(4) == 100 * Pow10(2);
    assert Pow10(9) == 100_000 * Pow10(4);
  }

  lemma StampOrder(a: Civil, b: Civil, s: string, t: string)
    requires ValidCivil(a) && ValidCivil(b)
    ensures TextLess(Stamp(a, s), Stamp(b, t)) <==> CivilLess(a, b, TextLess(s, t))
  {
    Pow10Values();
    var s5, t5 := Digits(a.second, 2) + s, Digits(b.second, 2) + t;
    var s4, t4 := Digits(a.minute, 2) + (":" + s5), Digits(b.minute, 2) + (":" + t5);
    var s3, t3 := Digits(a.hour, 2) + (":" + s4), Digits(b.hour, 2) + (":" + t4);
    var s2, t2 := Digits(a.day, 2) + ("T" + s3), Digits(b.day, 2) + ("T" + t3);
    var s1, t1 := Digits(a.month, 2) + ("-" + s2), Digits(b.month, 2) + ("-" + t2);
    DigitsOrder(a.second, b.second, 2);
    LessConcat(Digits(a.second, 2), Digits(b.second, 2), s, t);
    FieldOrder(a.minute, b.minute, 2, ":", s5, t5);
    FieldOrder(a.hour, b.hour, 2, ":", s4, t4);
    FieldOrder(a.day, b.day, 2, "T", s3, t3);
    FieldOrder(a.month, b.month, 2, "-", s2, t2);
    FieldOrder(a.year, b.year, 4, "-", s1, t1);
  }

  predicate ProperPrefix(s: string, t: string) {
    s < t
  }

  /** Two digit texts, each closed by 'Z': the longer of two prefixes comes first. */
  lemma {:induction false} ClosedOrder(f: string, g: string)
    requires AllDigits(f) && AllDigits(g)
    ensures TextLess(f + "Z", g + "Z") <==> ProperPrefix(g, f) || (!ProperPrefix(f, g) && TextLess(f, g))
  {
    if f == "" || g == "" {
      assert f + "Z" == if f == "" then "Z" else [f[0]] + (f[1..] + "Z");
      assert g + "Z" == if g == "" then "Z" else [g[0]] + (g[1..] + "Z");
    } else {
      assert (f + "Z")[1..] == f[1..] + "Z" && (g + "Z")[1..] == g[1..] + "Z";
      ClosedOrder(f[1..], g[1..]);
      assert f == [f[0]] + f[1..] && g == [g[0]] + g[1..];
      assert ProperPrefix(f, g) <==> f[0] == g[0] && ProperPrefix(f[1..], g[1..]);
      assert ProperPrefix(g, f) <==> f[0] == g[0] && ProperPrefix(g[1..], f[1..]);
    }
  }

  lemma TailOrder(f: string, g: string)
    requires AllDigits(f) && AllDigits(g)
    ensures TextLess(Tail(f), Tail(g)) <==> ProperPrefix(g, f) || (!ProperPrefix(f, g) && TextLess(f, g))
  {
    if f == "" || g == "" {
      assert f != "" ==> Tail(f)[0] == '.';
      assert g != "" ==> Tail(g)[0] == '.';
    } else {
      assert Tail(f) == "." + (f + "Z") && Tail(g) == "." + (g + "Z");
      LessConcat(".", ".", f + "Z", g + "Z");
      ClosedOrder(f, g);
    }
  }

  lemma {:induction false} ZerosFirst(s: string, t: string)
    requires |s| == |t| && AllZeros(s) && AllDigits(t)
    ensures TextLess(s, t) <==> !AllZeros(t)
    ensures !TextLess(t, s)
  {
    if s != "" {
      ZerosFirst(s[1..], t[1..]);
      assert AllZeros(t) <==> t[0] == '0' && AllZeros(t[1..]);
    }
  }

  lemma {:induction false} TrimOrder(s: string, t: string)
    requires |s| == |t| && AllDigits(s) && AllDigits(t)
    ensures TextLess(TrimZeros(s), TrimZeros(t)) <==> TextLess(s, t)
  {
    if AllZeros(s) {
      ZerosFirst(s, t);
    } else if AllZeros(t) {
      ZerosFirst(t, s);
    } else {
      TrimOrder(s[1..], t[1..]);
      assert TrimZeros(s)[1..] == TrimZeros(s[1..]) && TrimZeros(t)[1..] == TrimZeros(t[1..]);
    }
  }

  // ---------- Main results ----------

  predicate TextBefore(a: Instant, b: Instant) {
    TextLess(Format(a), Format(b))
  }

  /** Same second, and one trimmed fraction is a proper prefix of the other. */
  predicate Misordered(a: Instant, b: Instant) {
    && a / SECOND == b / SECOND
    && (ProperPrefix(Fraction(a), Fraction(b)) || ProperPrefix(Fraction(b), Fraction(a)))
  }

  lemma FractionOrder(a: Instant, b: Instant)
    ensures TextLess(Fraction(a), Fraction(b)) <==> a % SECOND < b % SECOND
  {
    Pow10Values();
    DigitsOrder(a % SECOND, b % SECOND, 9);
    TrimOrder(Digits(a % SECOND, 9), Digits(b % SECOND, 9));
  }

  lemma PrefixIsLess(s: string, t: string)
    requires ProperPrefix(s, t)
    ensures TextLess(s, t) && !TextLess(t, s)
  {
    assert t == s + t[|s|..];
    assert s + [] == s;
    LessConcat(s, s, [], t[|s|..]);
    LessConcat(s, s, t[|s|..], []);
    NotLessSelf(s);
  }

  lemma SameTailOrder(a: Instant, b: Instant)
    requires a / SECOND == b / SECOND
    ensures TextLess(Tail(Fraction(a)), Tail(Fraction(b))) <==> ((a < b) != Misordered(a, b))
  {
    TailOrder(Fraction(a), Fraction(b));
    FractionOrder(a, b);
    FractionOrder(b, a);
    if ProperPrefix(Fraction(a), Fraction(b)) {
      PrefixIsLess(Fraction(a), Fraction(b));
    } else if ProperPrefix(Fraction(b), Fraction(a)) {
      PrefixIsLess(Fraction(b), Fraction(a));
    }
  }

  /** The text order is the time order, except that it is reversed exactly on misordered pairs. */
  lemma TextOrder(a: Instant, b: Instant)
    ensures TextBefore(a, b) <==> ((a < b) != Misordered(a, b))
  {
    var ca, cb := FromSeconds(a / SECOND), FromSeconds(b / SECOND);
    FromSecondsInverse(a / SECOND);
    FromSecondsInverse(b / SECOND);
    StampOrder(ca, cb, Tail(Fraction(a)), Tail(Fraction(b)));
    CivilOrder(ca, cb, TextLess(Tail(Fraction(a)), Tail(Fraction(b))));
    if a / SECOND == b / SECOND {
      SameTailOrder(a, b);
    }
  }

  lemma TextBeforeSoon(a: Instant, b: Instant)
    requires TextBefore(a, b)
    ensures a < b + SECOND
  {
    TextOrder(a, b);
  }

  /** What a text comparison is worth to the sweeps: it errs by less than one second. */
  lemma TextBeforeWithinASecond(a: Instant, b: Instant)
    ensures TextBefore(a, b) ==> a < b + SECOND
    ensures a / SECOND < b / SECOND ==> TextBefore(a, b)
    ensures a / SECOND > b / SECOND ==> !TextBefore(a, b)
  {
    TextOrder(a, b);
  }

  /** A failing family: a whole second is listed after every later time of the same second. */
  lemma WholeSecondComesLast(whole: Instant, later: Instant)
    requires whole % SECOND == 0 && later / SECOND == whole / SECOND && whole < later
    ensures TextBefore(later, whole) && !TextBefore(whole, later)
  {
    ZeroDigits(9);
    FractionOrder(whole, later);
    TextOrder(later, whole);
    TextOrder(whole, later);
  }

  lemma ZeroDigits(w: nat)
    ensures AllZeros(Digits(0, w))
  {
  }

  // ---------- Reading the text back ----------

  function ParseField(s: string, at: nat, w: nat): Option<nat> {
    if at + w <= |s| && AllDigits(s[at..at + w]) then Some(Value(s[at..at + w])) else None
  }

  predicate Separator(s: string, at: nat, c: char) {
    at < |s| && s[at] == c
  }

  /** The nanoseconds of a tail ".ddd...Z" or "Z"; digits after the ninth are dropped. */
  function ParseTail(s: string): Option<nat> {
    if s == "Z" then Some(0)
    else if |s| >= 3 && s[0] == '.' && s[|s| - 1] == 'Z' && AllDigits(s[1..|s| - 1]) then
      var digits := s[1..|s| - 1];
      var kept := if |digits| > 9 then digits[..9] else digits;
      Some(Value(kept) * Pow10(9 - |kept|))
    else None
  }

  /** time.Parse on the UTC form of the layout: fixed fields, valid calendar values, optional fraction. */
  function Parse(s: string): Option<Instant> {
    var year := ParseField(s, 0, 4);
    var month := ParseField(s, 5, 2);
    var day := ParseField(s, 8, 2);
    var hour := ParseField(s, 11, 2);
    var minute := ParseField(s, 14, 2);
    var second := ParseField(s, 17, 2);
    if !(year.Some? && month.Some? && day.Some? && hour.Some? && minute.Some? && second.Some?) then None
    else if !(Separator(s, 4, '-') && Separator(s, 7, '-') && Separator(s, 10, 'T') &&
              Separator(s, 13, ':') && Separator(s, 16, ':')) then None
    else
      var c := Civil(year.value, month.value, day.value, hour.value, minute.value, second.value);
      var ns := ParseTail(s[19..]);
      if ValidCivil(c) && ns.Some? && ns.value < SECOND then
        SecondsBound(c);
        Some(ToSeconds(c) * SECOND + ns.value)
      else None
  }

  lemma SecondsBound(c: Civil)
    requires ValidCivil(c)
    ensures ToSeconds(c) < LAST_DAY * DAY
  {
    YearStartStep(c.year);
    YearStartMonotone(c.year + 1, 10000);
    assert YearStart(10000) == LAST_DAY;
    assert MonthStart(c.year, c.month + 1) == MonthStart(c.year, c.month) + MonthDays(c.year, c.month);
    MonthStartMonotone(c.year, c.month + 1, 13);
    MonthStartEnd(c.year);
    assert DayNumber(c) < LAST_DAY;
  }

  lemma {:induction false} ValueOfDigits(n: nat, w: nat)
    requires n < Pow10(w)
    ensures Value(Digits(n, w)) == n
  {
    if w > 0 {
      ValueOfDigits(n / 10, w - 1);
      var s := Digits(n, w);
      assert s[..w - 1] == Digits(n / 10, w - 1);
      assert (s[w - 1] - '0') as nat == n % 10;
    }
  }

  lemma {:induction false} ValueOfZeros(s: string, zeros: string)
    requires AllDigits(s) && AllZeros(zeros)
    ensures AllDigits(s + zeros) && Value(s + zeros) == Value(s) * Pow10(|zeros|)
  {
    if zeros == "" {
      assert s + zeros == s;
    } else {
      var most := zeros[..|zeros| - 1];
      ValueOfZeros(s, most);
      assert (s + zeros)[..|s + zeros| - 1] == s + most;
    }
  }

  lemma TailRoundTrip(t: Instant)
    ensures ParseTail(Tail(Fraction(t))) == Some(t % SECOND)
  {
    Pow10Values();
    ValueOfDigits(t % SECOND, 9);
    ReadTrimmed(Digits(t % SECOND, 9));
  }

  lemma ReadTail(f: string)
    requires AllDigits(f) && |f| <= 9
    ensures ParseTail(Tail(f)) == Some(Value(f) * Pow10(9 - |f|))
  {
    if f != "" {
      var s := Tail(f);
      assert s[1..|s| - 1] == f;
    }
  }

  lemma ReadTrimmed(all: string)
    requires AllDigits(all) && |all| == 9
    ensures ParseTail(Tail(TrimZeros(all))) == Some(Value(all))
  {
    var f := TrimZeros(all);
    ReadTail(f);
    ValueOfZeros(f, all[|f|..]);
    assert f + all[|f|..] == all;
  }

  lemma ReadField(s: string, at: nat, n: nat, w: nat, rest: string)
    requires at <= |s| && s[at..] == Digits(n, w) + rest && n < Pow10(w)
    ensures ParseField(s, at, w) == Some(n)
    ensures at + w <= |s| && s[at + w..] == rest
  {
    assert s[at..at + w] == s[at..][..w] == Digits(n, w);
    assert s[at + w..] == s[at..][w..];
    ValueOfDigits(n, w);
  }

  lemma ReadSeparated(s: string, at: nat, n: nat, w: nat, sep: char, rest: string)
    requires at <= |s| && s[at..] == Digits(n, w) + ([sep] + rest) && n < Pow10(w)
    ensures ParseField(s, at, w) == Some(n) && Separator(s, at + w, sep)
    ensures s[at + w + 1..] == rest
  {
    ReadField(s, at, n, w, [sep] + rest);
    assert s[at + w] == s[at + w..][0];
    assert s[at + w + 1..] == s[at + w..][1..];
  }

  /** Every field of c, every separator and the tail sit where the parser looks for them. */
  predicate Reads(s: string, c: Civil, tail: string) {
    && ParseField(s, 0, 4) == Some(c.year) && ParseField(s, 5, 2) == Some(c.month)
    && ParseField(s, 8, 2) == Some(c.day) && ParseField(s, 11, 2) == Some(c.hour)
    && ParseField(s, 14, 2) == Some(c.minute) && ParseField(s, 17, 2) == Some(c.second)
    && Separator(s, 4, '-') && Separator(s, 7, '-') && Separator(s, 10, 'T')
    && Separator(s, 13, ':') && Separator(s, 16, ':')
    && |s| >= 19 && s[19..] == tail
  }

  lemma ReadStamp(c: Civil, tail: string)
    requires ValidCivil(c)
    ensures Reads(Stamp(c, tail), c, tail)
  {
    Pow10Values();
    var s := Stamp(c, tail);
    var s5 := Digits(c.second, 2) + tail;
    var s4 := Digits(c.minute, 2) + (":" + s5);
    var s3 := Digits(c.hour, 2) + (":" + s4);
    var s2 := Digits(c.day, 2) + ("T" + s3);
    var s1 := Digits(c.month, 2) + ("-" + s2);
    assert s[0..] == Digits(c.year, 4) + ("-" + s1);
    ReadSeparated(s, 0, c.year, 4, '-', s1);
    ReadSeparated(s, 5, c.month, 2, '-', s2);
    ReadSeparated(s, 8, c.day, 2, 'T', s3);
    ReadSeparated(s, 11, c.hour, 2, ':', s4);
    ReadSeparated(s, 14, c.minute, 2, ':', s5);
    ReadField(s, 17, c.second, 2, tail);
  }

  lemma ParseRead(s: string, c: Civil, tail: string, t: Instant)
    requires ValidCivil(c) && Reads(s, c, tail)
    requires ToSeconds(c) == t / SECOND && ParseTail(tail) == Some(t % SECOND)
    ensures Parse(s) == Some(t)
  {
  }

  /** Formatting a time and reading it back gives the same time. */
  lemma FormatParse(t: Instant)
    ensures Parse(Format(t)) == Some(t)
  {
    var c, tail := FromSeconds(t / SECOND), Tail(Fraction(t));
    FromSecondsInverse(t / SECOND);
    assert ParseTail(tail) == Some(t % SECOND) by { TailRoundTrip(t); }
    assert Reads(Stamp(c, tail), c, tail) by { ReadStamp(c, tail); }
    ParseRead(Stamp(c, tail), c, tail, t);
  }

  /** The layout of the text: fixed fields with their separators, at most nine digits of fraction of which the
      last is not zero, and a closing Z. */
  lemma FormatLayout(t: Instant)
    ensures var s := Format(t);
      && 20 <= |s| <= 30 && |s| != 21
      && s[4] == '-' && s[7] == '-' && s[10] == 'T' && s[13] == ':' && s[16] == ':' && s[|s| - 1] == 'Z'
      && (|s| > 20 ==> s[19] == '.' && s[|s| - 2] != '0' && AllDigits(s[20..|s| - 1]))
      && (|s| == 20 <==> t % SECOND == 0)
  {
    var c, f := FromSeconds(t / SECOND), Fraction(t);
    FractionDigits(t);
    assert Reads(Format(t), c, Tail(f)) by { ReadStamp(c, Tail(f)); }
    TailLayout(Format(t), f);
  }

  lemma TailLayout(s: string, f: string)
    requires |s| >= 19 && s[19..] == Tail(f) && AllDigits(f) && |f| <= 9 && (f != "" ==> f[|f| - 1] != '0')
    ensures 20 <= |s| <= 30 && |s| != 21 && s[|s| - 1] == 'Z' && (|s| == 20 <==> f == "")
    ensures f != "" ==> s[19] == '.' && s[|s| - 2] != '0' && s[20..|s| - 1] == f
  {
    var tail := s[19..];
    assert |s| == 19 + |tail| && forall i :: 0 <= i < |tail| ==> s[19 + i] == tail[i];
  }

  lemma FractionDigits(t: Instant)
    ensures AllDigits(Fraction(t)) && |Fraction(t)| <= 9 && (Fraction(t) == "" <==> t % SECOND == 0)
  {
    var all := Digits(t % SECOND, 9);
    Pow10Values();
    ZeroDigits(9);
    ValueOfDigits(t % SECOND, 9);
    if Fraction(t) == "" {
      assert AllZeros(all) && all == "" + all;
      ValueOfZeros("", all);
    }
  }

  /** The calendar's anchors: the Unix epoch, and a leap day, by their day numbers. */
  lemma Epoch()
    ensures DayNumber(Civil(1970, 1, 1, 0, 0, 0)) == 719_528
    ensures ToSeconds(Civil(1970, 1, 1, 0, 0, 0)) == 62_167_219_200
    ensures DayNumber(Civil(2000, 2, 29, 12, 34, 56)) == 719_528 + 11_016
  {
    assert YearStart(1970) == 719_528;
    LeapDay();
  }

  lemma LeapDay()
    ensures DayNumber(Civil(2000, 2, 29, 12, 34, 56)) == 719_528 + 11_016
  {
    assert YearStart(2000) == 730_485;
    assert MonthStart(2000, 2) == MonthStart(2000, 1) + MonthDays(2000, 1) == 31;
  }
}
