/** Calendar dates as Python's datetime.date sees them (proleptic Gregorian,
    years 1..9999), one-day steps, timedelta arithmetic, and the
    strftime/strptime format "%Y-%m-%d". */
module Dates {
  import opened Wrappers
  import opened Text

  datatype Date = Date(year: int, month: int, day: int)

  predicate IsLeap(y: int) {
    y % 4 == 0 && (y % 100 != 0 || y % 400 == 0)
  }

  function DaysInMonth(y: int, m: int): (n: int)
    requires 1 <= m <= 12
    ensures 28 <= n <= 31
  {
    if m == 2 then (if IsLeap(y) then 29 else 28)
    else if m == 4 || m == 6 || m == 9 || m == 11 then 30
    else 31
  }

  const MinYear := 1
  const MaxYear := 9999

  predicate Valid(d: Date) {
    MinYear <= d.year <= MaxYear && 1 <= d.month <= 12 && 1 <= d.day <= DaysInMonth(d.year, d.month)
  }

  /** A calendar date, valid by construction. */
  type ValidDate = d: Date | Valid(d) witness Date(2025, 12, 1)

  /** Chronological order. */
  predicate Before(a: Date, b: Date) {
    a.year < b.year || (a.year == b.year && (a.month < b.month || (a.month == b.month && a.day < b.day)))
  }

  /** A number that grows with the date; it serves as a termination measure for date loops. */
  function Rank(d: Date): int {
    d.year * 416 + d.month * 32 + d.day
  }

  lemma RankOrder(a: Date, b: Date)
    requires Valid(a) && Valid(b)
    ensures Before(a, b) <==> Rank(a) < Rank(b)
    ensures a == b <==> Rank(a) == Rank(b)
  {
  }

  /** d + timedelta(days=1); None where Python raises OverflowError. */
  function Next(d: Date): (r: Option<Date>)
    requires Valid(d)
    ensures r.Some? ==> Valid(r.value) && Before(d, r.value)
    ensures r.None? <==> d == Date(MaxYear, 12, 31)
  {
    if d.day < DaysInMonth(d.year, d.month) then Some(Date(d.year, d.month, d.day + 1))
    else if d.month < 12 then Some(Date(d.year, d.month + 1, 1))
    else if d.year < MaxYear then Some(Date(d.year + 1, 1, 1))
    else None
  }

  /** d + timedelta(days=1) for a December day other than the 31st. */
  function NextInDecember(d: Date): (r: Date)
    requires MinYear <= d.year <= MaxYear && d.month == 12 && 1 <= d.day < 31
    ensures Next(d) == Some(r) && r == Date(d.year, 12, d.day + 1)
  {
    Next(d).value
  }

  /** d - timedelta(days=1); None where Python raises OverflowError. */
  function Prev(d: Date): (r: Option<Date>)
    requires Valid(d)
    ensures r.Some? ==> Valid(r.value) && Before(r.value, d)
    ensures r.None? <==> d == Date(MinYear, 1, 1)
  {
    if d.day > 1 then Some(Date(d.year, d.month, d.day - 1))
    else if d.month > 1 then Some(Date(d.year, d.month - 1, DaysInMonth(d.year, d.month - 1)))
    else if d.year > MinYear then Some(Date(d.year - 1, 12, 31))
    else None
  }

  /** Next and Prev undo each other. */
  lemma NextPrev(d: Date, e: Date)
    requires Valid(d) && Valid(e)
    ensures Next(d) == Some(e) <==> Prev(e) == Some(d)
  {
  }

  /** Next is the immediate successor: no valid date lies strictly between d and Next(d). */
  lemma NextIsImmediate(d: Date, x: Date)
    requires Valid(d) && Valid(x) && Next(d).Some?
    ensures Before(d, x) ==> !Before(x, Next(d).value)
  {
  }

  /** d + timedelta(days=n), stepping one day at a time. */
  function AddDays(d: Date, n: int): (r: Option<Date>)
    requires Valid(d)
    ensures r.Some? ==> Valid(r.value)
    decreases if n < 0 then -n else n
  {
    if n == 0 then Some(d)
    else if n > 0 then
      match Next(d)
      case None => None
      case Some(e) => AddDays(e, n - 1)
    else
      match Prev(d)
      case None => None
      case Some(e) => AddDays(e, n + 1)
  }

  // ---------------------------------------------------------------- text form

  /** date.strftime("%Y-%m-%d"). */
  function Format(d: Date): (s: string)
    requires Valid(d)
    ensures |s| == 10
  {
    Pad4Digits(d.year);
    Pad2Digits(d.month);
    Pad2Digits(d.day);
    Pad(d.year, 4) + (['-'] + (Pad(d.month, 2) + (['-'] + Pad(d.day, 2))))
  }

  /** date.strftime("%Y-%m"), the month part of Format. */
  function FormatMonth(d: Date): (s: string)
    requires Valid(d)
    ensures |s| == 7 && IsPrefix(s, Format(d))
  {
    Pad4Digits(d.year);
    Pad2Digits(d.month);
    assert Format(d) == (Pad(d.year, 4) + "-" + Pad(d.month, 2)) + "-" + Pad(d.day, 2);
    Pad(d.year, 4) + "-" + Pad(d.month, 2)
  }

  /** datetime.strptime(s, "%Y-%m-%d") on the canonical zero-padded form;
      None where Python raises ValueError. */
  function Parse(s: string): (r: Option<Date>)
    ensures r.Some? ==> Valid(r.value)
  {
    if |s| == 10 && s[4] == '-' && s[7] == '-'
       && IsDigit(s[0]) && IsDigit(s[1]) && IsDigit(s[2]) && IsDigit(s[3])
       && IsDigit(s[5]) && IsDigit(s[6]) && IsDigit(s[8]) && IsDigit(s[9])
    then
      var y := 1000 * DigitValue(s[0]) + 100 * DigitValue(s[1]) + 10 * DigitValue(s[2]) + DigitValue(s[3]);
      var m := 10 * DigitValue(s[5]) + DigitValue(s[6]);
      var dd := 10 * DigitValue(s[8]) + DigitValue(s[9]);
      if MinYear <= y && 1 <= m <= 12 && 1 <= dd <= DaysInMonth(y, m) then Some(Date(y, m, dd)) else None
    else None
  }

  lemma FormatChars(d: Date)
    requires Valid(d)
    ensures var s := Format(d);
      s[0] == Digit(d.year / 1000) && s[1] == Digit(d.year / 100 % 10) &&
      s[2] == Digit(d.year / 10 % 10) && s[3] == Digit(d.year % 10) && s[4] == '-' &&
      s[5] == Digit(d.month / 10) && s[6] == Digit(d.month % 10) && s[7] == '-' &&
      s[8] == Digit(d.day / 10) && s[9] == Digit(d.day % 10)
  {
    Pad4Digits(d.year);
    Pad2Digits(d.month);
    Pad2Digits(d.day);
  }

  lemma Digits4(n: nat)
    requires n < 10000
    ensures 1000 * (n / 1000) + 100 * (n / 100 % 10) + 10 * (n / 10 % 10) + n % 10 == n
  {
    var q1 := n / 10;
    var q2 := q1 / 10;
    assert n == 10 * q1 + n % 10;
    assert q1 == 10 * q2 + q1 % 10;
    assert q2 == 10 * (q2 / 10) + q2 % 10;
    assert n / 100 == q2;
    assert n / 1000 == q2 / 10;
  }

  lemma Undigits4(a: nat, b: nat, c: nat, e: nat)
    requires a < 10 && b < 10 && c < 10 && e < 10
    ensures var n := 1000 * a + 100 * b + 10 * c + e;
      n / 1000 == a && n / 100 % 10 == b && n / 10 % 10 == c && n % 10 == e
  {
    var n := 1000 * a + 100 * b + 10 * c + e;
    var k := 100 * a + 10 * b + c;
    assert n == 10 * k + e;
    assert n / 10 == k && n % 10 == e;
    var j := 10 * a + b;
    assert k == 10 * j + c;
    assert k / 10 == j && k % 10 == c;
    assert n / 100 == j;
    assert j / 10 == a && j % 10 == b;
  }

  /** Parsing a formatted date gives the date back. */
  lemma ParseFormat(d: Date)
    requires Valid(d)
    ensures Parse(Format(d)) == Some(d)
  {
    var s := Format(d);
    FormatChars(d);
    DigitRoundTrip(d.year / 1000);
    DigitRoundTrip(d.year / 100 % 10);
    DigitRoundTrip(d.year / 10 % 10);
    DigitRoundTrip(d.year % 10);
    DigitRoundTrip(d.month / 10);
    DigitRoundTrip(d.month % 10);
    DigitRoundTrip(d.day / 10);
    DigitRoundTrip(d.day % 10);
    Digits4(d.year);
    var y := 1000 * DigitValue(s[0]) + 100 * DigitValue(s[1]) + 10 * DigitValue(s[2]) + DigitValue(s[3]);
    var m := 10 * DigitValue(s[5]) + DigitValue(s[6]);
    var dd := 10 * DigitValue(s[8]) + DigitValue(s[9]);
    assert y == d.year && m == d.month && dd == d.day;
  }

  lemma ParsedDigits(s: string)
    requires Parse(s).Some?
    ensures var d := Parse(s).value;
      d.year / 1000 == DigitValue(s[0]) && d.year / 100 % 10 == DigitValue(s[1]) &&
      d.year / 10 % 10 == DigitValue(s[2]) && d.year % 10 == DigitValue(s[3]) &&
      d.month / 10 == DigitValue(s[5]) && d.month % 10 == DigitValue(s[6]) &&
      d.day / 10 == DigitValue(s[8]) && d.day % 10 == DigitValue(s[9])
  {
    Undigits4(DigitValue(s[0]), DigitValue(s[1]), DigitValue(s[2]), DigitValue(s[3]));
  }

  /** A string that parses is exactly the formatted form of what it parses to. */
  lemma FormatParse(s: string)
    requires Parse(s).Some?
    ensures Format(Parse(s).value) == s
  {
    var d := Parse(s).value;
    ParsedDigits(s);
    FormatChars(d);
    var f := Format(d);
    assert forall i :: 0 <= i < 10 ==> f[i] == s[i];
  }

  /** Distinct dates have distinct text forms. */
  lemma FormatInjective(a: Date, b: Date)
    requires Valid(a) && Valid(b) && Format(a) == Format(b)
    ensures a == b
  {
    ParseFormat(a);
    ParseFormat(b);
  }

  /** The text fields of Format: split on '-' gives year, month and day. */
  lemma FormatSplit(d: Date)
    requires Valid(d)
    ensures Split(Format(d), '-') == [Pad(d.year, 4), Pad(d.month, 2), Pad(d.day, 2)]
  {
    var y, m, dd := Pad(d.year, 4), Pad(d.month, 2), Pad(d.day, 2);
    assert '-' !in y && '-' !in m && '-' !in dd by {
      assert forall i :: 0 <= i < |y| ==> IsDigit(y[i]);
      assert forall i :: 0 <= i < |m| ==> IsDigit(m[i]);
      assert forall i :: 0 <= i < |dd| ==> IsDigit(dd[i]);
    }
    assert Format(d) == y + ['-'] + m + ['-'] + dd;
    Split3(y, m, dd, '-');
  }

  /** Zero-padded fields of one width compare as their numbers do. */
  lemma PadOrder(x: nat, y: nat, w: nat)
    requires |Pad(x, w)| == |Pad(y, w)|
    ensures LexLess(Pad(x, w), Pad(y, w)) <==> x < y
    ensures Pad(x, w) == Pad(y, w) <==> x == y
  {
    PadValue(x, w);
    PadValue(y, w);
    LexLessDigits(Pad(x, w), Pad(y, w));
  }

  lemma DashFirst(x: string, y: string)
    ensures LexLess(['-'] + x, ['-'] + y) <==> LexLess(x, y)
  {
    assert (['-'] + x)[1..] == x && (['-'] + y)[1..] == y;
  }

  lemma RestOrder(ma: string, da: string, mb: string, db: string)
    requires |ma| == |mb|
    ensures LexLess(['-'] + (ma + (['-'] + da)), ['-'] + (mb + (['-'] + db))) <==>
      (LexLess(ma, mb) || (ma == mb && LexLess(da, db)))
  {
    DashFirst(ma + (['-'] + da), mb + (['-'] + db));
    LexLessConcat(ma, ['-'] + da, mb, ['-'] + db);
    DashFirst(da, db);
  }

  /** Three dash-separated fields of fixed widths compare field by field. */
  lemma FieldsOrder(ya: string, ma: string, da: string, yb: string, mb: string, db: string)
    requires |ya| == |yb| && |ma| == |mb|
    ensures LexLess(ya + (['-'] + (ma + (['-'] + da))), yb + (['-'] + (mb + (['-'] + db)))) <==>
      LexLess(ya, yb) || (ya == yb && (LexLess(ma, mb) || (ma == mb && LexLess(da, db))))
  {
    LexLessConcat(ya, ['-'] + (ma + (['-'] + da)), yb, ['-'] + (mb + (['-'] + db)));
    RestOrder(ma, da, mb, db);
  }

  lemma FieldWidths(d: Date)
    requires Valid(d)
    ensures |Pad(d.year, 4)| == 4 && |Pad(d.month, 2)| == 2 && |Pad(d.day, 2)| == 2
  {
    Pad4Digits(d.year);
    Pad2Digits(d.month);
    Pad2Digits(d.day);
  }

  /** "%Y-%m-%d" strings sort as the dates do, so `sorted` on them is chronological. */
  lemma FormatOrder(a: Date, b: Date)
    requires Valid(a) && Valid(b)
    ensures Before(a, b) <==> LexLess(Format(a), Format(b))
  {
    FieldWidths(a);
    FieldWidths(b);
    PadOrder(a.year, b.year, 4);
    PadOrder(a.month, b.month, 2);
    PadOrder(a.day, b.day, 2);
    FieldsOrder(Pad(a.year, 4), Pad(a.month, 2), Pad(a.day, 2), Pad(b.year, 4), Pad(b.month, 2), Pad(b.day, 2));
  }

  /** d starts with the "%Y-%m" of now exactly when d is in now's month. */
  lemma SameMonth(now: Date, d: Date)
    requires Valid(now) && Valid(d)
    ensures IsPrefix(FormatMonth(now), Format(d)) <==> (d.year == now.year && d.month == now.month)
  {
    var p, q := FormatMonth(now), FormatMonth(d);
    assert Format(d)[..7] == q;
    Pad4Digits(now.year); Pad4Digits(d.year);
    Pad2Digits(now.month); Pad2Digits(d.month);
    if p == q {
      assert p[..4] == Pad(now.year, 4) && q[..4] == Pad(d.year, 4);
      assert p[5..] == Pad(now.month, 2) && q[5..] == Pad(d.month, 2);
      PadOrder(now.year, d.year, 4);
      PadOrder(now.month, d.month, 2);
    }
  }
}
