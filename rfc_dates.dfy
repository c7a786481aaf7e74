/**
 * The two date layouts the modelled code hands to Go's `time.Parse`:
 * RFC 1123 with a numeric zone, `Mon, 02 Jan 2006 15:04:05 -0700` (the
 * date-time of RFC 822 section 5 as amended by RFC 1123 section 5.2.14), for
 * an RSS item's `pubDate`; and `2006-01-02` for a film's release date.
 * Each parser follows `time.Parse` for its layout: a recogniser that either
 * yields the broken-down time or fails.
 */
module RfcDates {

  import opened Wrappers
  import opened Strings

  /** A parsed time: calendar fields, nanoseconds, and the zone offset in seconds east of UTC. */
  datatype DateTime = DateTime(year: int, month: int, day: int,
                               hour: int, minute: int, second: int, nanos: int, offset: int)

  /** Go's zero `time.Time`: January 1 of year 1, 00:00:00 UTC. */
  const ZeroTime := DateTime(1, 1, 1, 0, 0, 0, 0, 0)

  const ShortDayNames: seq<string> := ["Sun", "Mon", "Tue", "Wed", "Thu", "Fri", "Sat"]
  const ShortMonthNames: seq<string> := ["Jan", "Feb", "Mar", "Apr", "May", "Jun", "Jul", "Aug", "Sep", "Oct", "Nov", "Dec"]

  /** A number read off the front of the input, and what is left. */
  datatype Scan = Scan(val: int, rest: string)

  /** Equal up to ASCII letter case (Go's `match`). */
  predicate MatchFold(a: string, b: string)
    decreases |a|
  {
    |a| == |b| && (a == [] || (LowerChar(a[0]) == LowerChar(b[0]) && MatchFold(a[1..], b[1..])))
  }

  /** Go's `lookup`: the first table entry that starts the input, ignoring case. */
  function Lookup(table: seq<string>, s: string): (r: Option<Scan>)
    ensures r.Some? ==>
              && 0 <= r.value.val < |table|
              && |table[r.value.val]| <= |s|
              && r.value.rest == s[|table[r.value.val]|..]
    decreases |table|
  {
    if table == [] then None
    else if |table[0]| <= |s| && MatchFold(s[..|table[0]|], table[0]) then Some(Scan(0, s[|table[0]|..]))
    else match Lookup(table[1..], s)
      case None => None
      case Some(sc) => Some(Scan(sc.val + 1, sc.rest))
  }

  /** Go's `cutspace`: drops leading spaces. */
  function CutSpace(s: string): (r: string)
    ensures r == [] || r[0] != ' '
    ensures |r| <= |s| && r == s[|s| - |r|..]
    ensures |s| > 0 && s[0] == ' ' ==> |r| < |s|
    decreases |s|
  {
    if |s| > 0 && s[0] == ' ' then CutSpace(s[1..]) else s
  }

  /** Go's `skip`: matches the layout's literal text; a space in the layout matches a run of spaces. */
  function Skip(value: string, prefix: string): Option<string>
    decreases |prefix|
  {
    if prefix == [] then Some(value)
    else if prefix[0] == ' ' then
      if |value| > 0 && value[0] != ' ' then None
      else Skip(CutSpace(value), CutSpace(prefix))
    else if |value| == 0 || value[0] != prefix[0] then None
    else Skip(value[1..], prefix[1..])
  }

  /** Go's `getnum(s, true)`: exactly two digits. */
  function Num2(s: string): (r: Option<Scan>)
    ensures r.Some? ==> 0 <= r.value.val < 100
  {
    if |s| >= 2 && IsDigit(s[0]) && IsDigit(s[1]) then Some(Scan(DigitValue(s[0]) * 10 + DigitValue(s[1]), s[2..]))
    else None
  }

  /** Go's `getnum(s, false)`: one or two digits. */
  function Num12(s: string): (r: Option<Scan>)
    ensures r.Some? ==> 0 <= r.value.val < 100
  {
    if |s| >= 1 && IsDigit(s[0]) then
      if |s| >= 2 && IsDigit(s[1]) then Some(Scan(DigitValue(s[0]) * 10 + DigitValue(s[1]), s[2..]))
      else Some(Scan(DigitValue(s[0]), s[1..]))
    else None
  }

  /** The `2006` layout element: four digits. */
  function Year4(s: string): (r: Option<Scan>)
    ensures r.Some? ==> 0 <= r.value.val < 10000
  {
    if |s| >= 4 && AllDigits(s[..4]) then
      DigitsBound(s[..4]);
      Some(Scan(DigitsValue(s[..4]), s[4..]))
    else None
  }

  /** The `-0700` layout element: a sign and four digits; offset hours above 24 or minutes above 60 are out of range. */
  function NumZone(s: string): (r: Option<Scan>)
    ensures r.Some? ==> -(24 * 60 + 60) * 60 <= r.value.val <= (24 * 60 + 60) * 60
  {
    if |s| < 5 then None
    else match (Num2(s[1..3]), Num2(s[3..5]))
      case (Some(h), Some(m)) =>
        if h.val > 24 || m.val > 60 then None
        else if s[0] == '+' then Some(Scan((h.val * 60 + m.val) * 60, s[5..]))
        else if s[0] == '-' then Some(Scan(-((h.val * 60 + m.val) * 60), s[5..]))
        else None
      case _ => None
  }

  /** Nanoseconds of a fraction given by its digits (only the first nine count). */
  function FractionNanos(digits: string): (r: nat)
    requires AllDigits(digits)
    ensures r < 1000000000
  {
    if |digits| >= 9 then
      DigitsBound(digits[..9]);
      DigitsValue(digits[..9])
    else
      DigitsBound(digits);
      ScaledBound(DigitsValue(digits), |digits|, 9 - |digits|);
      DigitsValue(digits) * Pow10(9 - |digits|)
  }

  /** A number below 10^a, scaled by 10^b, stays below 10^(a+b). */
  lemma ScaledBound(v: nat, a: nat, b: nat)
    requires v < Pow10(a)
    ensures v * Pow10(b) < Pow10(a + b)
  {
    Pow10Add(a, b);
    var p, q := Pow10(a), Pow10(b);
    Pow10Positive(b);
    MulMonotone(v + 1, p, q);
    assert v * q < (v + 1) * q;
  }

  lemma {:induction false} Pow10Positive(n: nat)
    ensures Pow10(n) >= 1
  {
    if n > 0 {
      Pow10Positive(n - 1);
    }
  }

  lemma MulMonotone(x: nat, y: nat, q: nat)
    requires x <= y
    ensures x * q <= y * q
  {
    assert y * q == x * q + (y - x) * q;
  }

  function Pow10(n: nat): nat {
    if n == 0 then 1 else 10 * Pow10(n - 1)
  }

  lemma {:induction false} Pow10Add(a: nat, b: nat)
    ensures Pow10(a) * Pow10(b) == Pow10(a + b)
    decreases a
  {
    if a > 0 {
      Pow10Add(a - 1, b);
    }
  }

  /** A run of n digits is worth less than 10^n. */
  lemma {:induction false} DigitsBound(s: string)
    requires AllDigits(s)
    ensures DigitsValue(s) < Pow10(|s|)
    decreases |s|
  {
    if s != [] {
      DigitsBound(s[..|s| - 1]);
    }
  }

  /** The length of the run of digits at the front of `s`. */
  function DigitRun(s: string): (n: nat)
    ensures n <= |s| && AllDigits(s[..n]) && (n == |s| || !IsDigit(s[n]))
    decreases |s|
  {
    if |s| > 0 && IsDigit(s[0]) then 1 + DigitRun(s[1..]) else 0
  }

  /** A fractional second the layout does not mention is still accepted after the seconds (`.123`, `,5`). */
  function Fraction(s: string): (r: Scan)
    ensures 0 <= r.val < 1000000000
  {
    if |s| >= 2 && (s[0] == '.' || s[0] == ',') && IsDigit(s[1]) then
      var n := 1 + DigitRun(s[1..]);
      assert s[1..n] == s[1..][..n - 1];
      Scan(FractionNanos(s[1..n]), s[n..])
    else Scan(0, s)
  }

  predicate IsLeap(year: int) {
    year % 4 == 0 && (year % 100 != 0 || year % 400 == 0)
  }

  /** Days in a month (1-12) of a year. */
  function DaysIn(month: int, year: int): int
    requires 1 <= month <= 12
  {
    if month == 2 then (if IsLeap(year) then 29 else 28)
    else if month == 4 || month == 6 || month == 9 || month == 11 then 30
    else 31
  }

  /** The date part `Mon, 02 Jan 2006 ` : day, month and year, and the remaining input. */
  datatype DatePart = DatePart(day: int, month: int, year: int, rest: string)

  function ParseDatePart(s: string): (r: Option<DatePart>)
    ensures r.Some? ==> 1 <= r.value.month <= 12 && 0 <= r.value.day < 100 && 0 <= r.value.year < 10000
  {
    match Lookup(ShortDayNames, s)
    case None => None
    case Some(wd) =>
      match Skip(wd.rest, ", ")
      case None => None
      case Some(r1) =>
        match Num2(r1)
        case None => None
        case Some(d) =>
          ParseMonthYear(d.val, d.rest)
  }

  /** The rest of the date part, ` Jan 2006`, after the day has been read. */
  function ParseMonthYear(day: int, s: string): (r: Option<DatePart>)
    ensures r.Some? ==> r.value.day == day && 1 <= r.value.month <= 12 && 0 <= r.value.year < 10000
  {
    match Skip(s, " ")
    case None => None
    case Some(r2) =>
      match Lookup(ShortMonthNames, r2)
      case None => None
      case Some(m) => ParseYear(day, m.val + 1, m.rest)
  }

  /** The year ` 2006` that ends the date part. */
  function ParseYear(day: int, month: int, s: string): (r: Option<DatePart>)
    ensures r.Some? ==> r.value.day == day && r.value.month == month && 0 <= r.value.year < 10000
  {
    match Skip(s, " ")
    case None => None
    case Some(r3) =>
      match Year4(r3)
      case None => None
      case Some(y) => Some(DatePart(day, month, y.val, y.rest))
  }

  /** The clock part `15:04:05` (with an optional fraction): hour, minute, second, nanoseconds, remaining input. */
  datatype ClockPart = ClockPart(hour: int, minute: int, second: int, nanos: int, rest: string)

  function ParseClockPart(s: string): (r: Option<ClockPart>)
    ensures r.Some? ==> 0 <= r.value.hour < 24 && 0 <= r.value.minute < 60 && 0 <= r.value.second < 60
                        && 0 <= r.value.nanos < 1000000000
  {
    match Num12(s)
    case None => None
    case Some(h) =>
      if h.val >= 24 then None else
      match Skip(h.rest, ":")
      case None => None
      case Some(r1) =>
        match Num2(r1)
        case None => None
        case Some(mi) =>
          if mi.val >= 60 then None else
          match Skip(mi.rest, ":")
          case None => None
          case Some(r2) =>
            match Num2(r2)
            case None => None
            case Some(se) =>
              if se.val >= 60 then None else
              var f := Fraction(se.rest);
              Some(ClockPart(h.val, mi.val, se.val, f.val, f.rest))
  }

  /** `time.Parse(time.RFC1123Z, s)`: the whole input must be consumed and the day must exist in its month. */
  function ParseRfc1123Z(s: string): (r: Option<DateTime>)
    ensures r.Some? ==> Valid(r.value)
  {
    match ParseDatePart(s)
    case None => None
    case Some(dp) => ParseTimeOfDay(dp, dp.rest)
  }

  /** What the parser guarantees of a time it returns: a real calendar day, an in-range clock and zone. */
  predicate Valid(t: DateTime) {
    && 1 <= t.month <= 12 && 1 <= t.day <= DaysIn(t.month, t.year) && 0 <= t.year < 10000
    && 0 <= t.hour < 24 && 0 <= t.minute < 60 && 0 <= t.second < 60 && 0 <= t.nanos < 1000000000
    && -(24 * 60 + 60) * 60 <= t.offset <= (24 * 60 + 60) * 60
  }

  /** The rest of the RFC 1123 layout after the date: ` 15:04:05 -0700`. */
  function ParseTimeOfDay(dp: DatePart, s: string): (r: Option<DateTime>)
    requires 0 <= dp.year < 10000
    ensures r.Some? ==> Valid(r.value)
  {
    match Skip(s, " ")
    case None => None
    case Some(r1) =>
      match ParseClockPart(r1)
      case None => None
      case Some(cp) => ParseZone(dp, cp, cp.rest)
  }

  /** The zone ` -0700`, which must end the input, and the final calendar check. */
  function ParseZone(dp: DatePart, cp: ClockPart, s: string): (r: Option<DateTime>)
    requires 0 <= dp.year < 10000
    requires 0 <= cp.hour < 24 && 0 <= cp.minute < 60 && 0 <= cp.second < 60 && 0 <= cp.nanos < 1000000000
    ensures r.Some? ==> Valid(r.value)
  {
    match Skip(s, " ")
    case None => None
    case Some(r2) => Complete(dp, cp, NumZone(r2))
  }

  /** Assembles the time once the zone is read: nothing may follow it, and the day must exist. */
  function Complete(dp: DatePart, cp: ClockPart, zone: Option<Scan>): (r: Option<DateTime>)
    requires 0 <= dp.year < 10000
    requires 0 <= cp.hour < 24 && 0 <= cp.minute < 60 && 0 <= cp.second < 60 && 0 <= cp.nanos < 1000000000
    requires zone.Some? ==> -(24 * 60 + 60) * 60 <= zone.value.val <= (24 * 60 + 60) * 60
    ensures r.Some? ==> Valid(r.value)
  {
    match zone
    case None => None
    case Some(z) =>
      if z.rest != "" then None
      else if !(1 <= dp.month <= 12 && 1 <= dp.day <= DaysIn(dp.month, dp.year)) then None
      else Some(DateTime(dp.year, dp.month, dp.day, cp.hour, cp.minute, cp.second, cp.nanos, z.val))
  }

  /** `time.Parse("2006-01-02", s)`: a UTC midnight. */
  function ParseIsoDate(s: string): (r: Option<DateTime>)
    ensures r.Some? ==> Valid(r.value) && |s| == 10 && s[4] == '-' && s[7] == '-'
    ensures r.Some? ==> r.value.hour == 0 && r.value.minute == 0 && r.value.second == 0
                        && r.value.nanos == 0 && r.value.offset == 0
  {
    match Year4(s)
    case None => None
    case Some(y) =>
      match Skip(y.rest, "-")
      case None => None
      case Some(r1) =>
        match Num2(r1)
        case None => None
        case Some(m) =>
          if !(1 <= m.val <= 12) then None else
          match Skip(m.rest, "-")
          case None => None
          case Some(r2) =>
            match Num2(r2)
            case None => None
            case Some(d) =>
              if d.rest != "" then None
              else if !(1 <= d.val <= DaysIn(m.val, y.val)) then None
              else Some(DateTime(y.val, m.val, d.val, 0, 0, 0, 0, 0))
  }

  // ------------------------------------------------------------ formatting

  function Pad2(n: int): string
    requires 0 <= n < 100
  {
    [DigitChar(n / 10), DigitChar(n % 10)]
  }

  function Pad4(n: int): string
    requires 0 <= n < 10000
  {
    [DigitChar(n / 1000), DigitChar(n / 100 % 10), DigitChar(n / 10 % 10), DigitChar(n % 10)]
  }

  /** The times the RFC 1123 numeric-zone layout can write: whole seconds, four-digit years,
      and a whole-minute offset of at most 24 hours 59 minutes. */
  predicate Writable(t: DateTime) {
    && 0 <= t.year < 10000 && 1 <= t.month <= 12 && 1 <= t.day <= DaysIn(t.month, t.year)
    && 0 <= t.hour < 24 && 0 <= t.minute < 60 && 0 <= t.second < 60 && t.nanos == 0
    && t.offset % 60 == 0 && -(24 * 60 + 59) * 60 <= t.offset <= (24 * 60 + 59) * 60
  }

  /** `Mon, 02 Jan 2006`: weekday (0 = Sunday), day, month and year. */
  function DateText(weekday: int, day: int, month: int, year: int): string
    requires 0 <= weekday < 7 && 0 <= day < 100 && 1 <= month <= 12 && 0 <= year < 10000
  {
    ShortDayNames[weekday] + ", " + Pad2(day) + " " + ShortMonthNames[month - 1] + " " + Pad4(year)
  }

  /** `15:04:05`. */
  function ClockText(hour: int, minute: int, second: int): string
    requires 0 <= hour < 100 && 0 <= minute < 100 && 0 <= second < 100
  {
    Pad2(hour) + ":" + Pad2(minute) + ":" + Pad2(second)
  }

  /** `-0700`: the sign, then the offset's hours and minutes. */
  function ZoneText(offset: int): string
    requires offset % 60 == 0 && -(24 * 60 + 59) * 60 <= offset <= (24 * 60 + 59) * 60
  {
    var z := if offset < 0 then -offset / 60 else offset / 60;
    (if offset < 0 then "-" else "+") + Pad2(z / 60) + Pad2(z % 60)
  }

  /** Writes a time in the RFC 1123 numeric-zone layout, with the given weekday (0 = Sunday). */
  function FormatRfc1123Z(t: DateTime, weekday: int): string
    requires Writable(t) && 0 <= weekday < 7
  {
    DateText(weekday, t.day, t.month, t.year) + " " + ClockText(t.hour, t.minute, t.second) + " " + ZoneText(t.offset)
  }

  // ------------------------------------------------------------ round trip

  lemma Num2Pad(n: int, rest: string)
    requires 0 <= n < 100
    ensures Num2(Pad2(n) + rest) == Some(Scan(n, rest))
  {
    assert (Pad2(n) + rest)[2..] == rest;
  }

  lemma Num12Pad(n: int, rest: string)
    requires 0 <= n < 100
    ensures Num12(Pad2(n) + rest) == Some(Scan(n, rest))
  {
    assert (Pad2(n) + rest)[2..] == rest;
  }

  lemma Pad4Value(n: int)
    requires 0 <= n < 10000
    ensures AllDigits(Pad4(n)) && DigitsValue(Pad4(n)) == n
  {
    FourDigitsValue(n / 1000, n / 100 % 10, n / 10 % 10, n % 10);
    DecimalDigits(n);
  }

  /** A number below 10000 is its four decimal digits. */
  lemma DecimalDigits(n: int)
    requires 0 <= n < 10000
    ensures n == ((n / 1000 * 10 + n / 100 % 10) * 10 + n / 10 % 10) * 10 + n % 10
  {
    assert n / 100 == n / 1000 * 10 + n / 100 % 10;
    assert n / 10 == (n / 100) * 10 + n / 10 % 10;
  }

  lemma Pad4Front(n: int)
    requires 0 <= n < 10000
    ensures |Pad4(n)| == 4 && IsDigit(Pad4(n)[0])
  {
    assert 0 <= n / 1000 < 10;
  }

  /** Four digit characters are worth their decimal reading. */
  lemma FourDigitsValue(a: nat, b: nat, c: nat, d: nat)
    requires a < 10 && b < 10 && c < 10 && d < 10
    ensures AllDigits([DigitChar(a), DigitChar(b), DigitChar(c), DigitChar(d)])
    ensures DigitsValue([DigitChar(a), DigitChar(b), DigitChar(c), DigitChar(d)]) == ((a * 10 + b) * 10 + c) * 10 + d
  {
    var p := [DigitChar(a), DigitChar(b), DigitChar(c), DigitChar(d)];
    assert DigitsValue(p[..1]) == a by { assert p[..1][..0] == []; }
    assert DigitsValue(p[..2]) == a * 10 + b by { assert p[..2][..1] == p[..1]; }
    assert DigitsValue(p[..3]) == (a * 10 + b) * 10 + c by { assert p[..3][..2] == p[..2]; }
    assert p[..3] == p[..|p| - 1];
  }

  lemma Year4Pad(n: int, rest: string)
    requires 0 <= n < 10000
    ensures Year4(Pad4(n) + rest) == Some(Scan(n, rest))
  {
    var s := Pad4(n) + rest;
    assert s[..4] == Pad4(n);
    assert s[4..] == rest;
    Pad4Value(n);
  }

  lemma SkipLiteral(c: char, rest: string)
    requires c != ' '
    ensures Skip([c] + rest, [c]) == Some(rest)
  {
    assert ([c] + rest)[1..] == rest;
  }

  lemma SkipOneSpace(rest: string)
    requires rest == [] || rest[0] != ' '
    ensures Skip(" " + rest, " ") == Some(rest)
  {
    assert (" " + rest)[1..] == rest;
    assert CutSpace(" " + rest) == rest;
    assert CutSpace(" ") == "";
  }

  /** A literal character of the layout that the value repeats is consumed on both sides. */
  lemma SkipLiteralStep(value: string, prefix: string)
    requires |prefix| > 0 && prefix[0] != ' ' && |value| > 0 && value[0] == prefix[0]
    ensures Skip(value, prefix) == Skip(value[1..], prefix[1..])
  {
  }

  lemma SkipCommaSpace(rest: string)
    requires rest == [] || rest[0] != ' '
    ensures Skip(", " + rest, ", ") == Some(rest)
  {
    var v := ", " + rest;
    assert v[1..] == " " + rest;
    assert ", "[1..] == " ";
    SkipLiteralStep(v, ", ");
    SkipOneSpace(rest);
  }

  /** Lookup finds entry `i` when it matches and no earlier entry does. */
  lemma {:induction false} LookupAt(table: seq<string>, i: int, s: string)
    requires 0 <= i < |table| && |table[i]| <= |s| && MatchFold(s[..|table[i]|], table[i])
    requires forall j :: 0 <= j < i ==> !(|table[j]| <= |s| && MatchFold(s[..|table[j]|], table[j]))
    ensures Lookup(table, s) == Some(Scan(i, s[|table[i]|..]))
    decreases i
  {
    if i > 0 {
      assert table[1..][i - 1] == table[i];
      forall j | 0 <= j < i - 1
        ensures !(|table[1..][j]| <= |s| && MatchFold(s[..|table[1..][j]|], table[1..][j]))
      {
        assert table[1..][j] == table[j + 1];
      }
      LookupAt(table[1..], i - 1, s);
    }
  }

  lemma MatchFoldSelf(a: string)
    ensures MatchFold(a, a)
    decreases |a|
  {
    if a != [] {
      MatchFoldSelf(a[1..]);
    }
  }

  /** Each of the seven day names is read back as itself. */
  lemma LookupDay(i: int, rest: string)
    requires 0 <= i < 7
    ensures Lookup(ShortDayNames, ShortDayNames[i] + rest) == Some(Scan(i, rest))
  {
    var t := ShortDayNames;
    var s := t[i] + rest;
    assert s[..3] == t[i] && s[3..] == rest;
    MatchFoldSelf(t[i]);
    forall j | 0 <= j < i
      ensures !(|t[j]| <= |s| && MatchFold(s[..|t[j]|], t[j]))
    {
      assert |t[j]| == 3;
    }
    LookupAt(t, i, s);
  }

  /** Each of the twelve month names is read back as itself. */
  lemma LookupMonth(i: int, rest: string)
    requires 0 <= i < 12
    ensures Lookup(ShortMonthNames, ShortMonthNames[i] + rest) == Some(Scan(i, rest))
  {
    var t := ShortMonthNames;
    var s := t[i] + rest;
    assert s[..3] == t[i] && s[3..] == rest;
    MatchFoldSelf(t[i]);
    forall j | 0 <= j < i
      ensures !(|t[j]| <= |s| && MatchFold(s[..|t[j]|], t[j]))
    {
      assert |t[j]| == 3;
    }
    LookupAt(t, i, s);
  }

  lemma ZoneRoundTrip(offset: int)
    requires offset % 60 == 0 && -(24 * 60 + 59) * 60 <= offset <= (24 * 60 + 59) * 60
    ensures NumZone(ZoneText(offset)) == Some(Scan(offset, ""))
  {
    var z := if offset < 0 then -offset / 60 else offset / 60;
    var zt := ZoneText(offset);
    assert zt[1..3] == Pad2(z / 60) + "";
    assert zt[3..5] == Pad2(z % 60) + "";
    assert zt[5..] == "";
    Num2Pad(z / 60, "");
    Num2Pad(z % 60, "");
  }

  lemma ClockRoundTrip(h: int, mi: int, se: int, rest: string)
    requires 0 <= h < 24 && 0 <= mi < 60 && 0 <= se < 60
    requires rest != [] && rest[0] == ' '
    ensures ParseClockPart(ClockText(h, mi, se) + rest) == Some(ClockPart(h, mi, se, 0, rest))
  {
    var r3 := Pad2(se) + rest;
    var r2 := ":" + r3;
    var r1 := Pad2(mi) + r2;
    var r0 := ":" + r1;
    assert ClockText(h, mi, se) + rest == Pad2(h) + r0;
    Num12Pad(h, r0);
    SkipLiteral(':', r1);
    Num2Pad(mi, r2);
    SkipLiteral(':', r3);
    Num2Pad(se, rest);
  }

  lemma YearRoundTrip(d: int, m: int, y: int, rest: string)
    requires 0 <= y < 10000
    ensures ParseYear(d, m, " " + (Pad4(y) + rest)) == Some(DatePart(d, m, y, rest))
  {
    var r4 := Pad4(y) + rest;
    assert Skip(" " + r4, " ") == Some(r4) by {
      Pad4Front(y);
      assert r4[0] == Pad4(y)[0];
      SkipOneSpace(r4);
    }
    Year4Pad(y, rest);
  }

  lemma MonthYearRoundTrip(d: int, m: int, y: int, rest: string)
    requires 1 <= m <= 12 && 0 <= y < 10000
    ensures ParseMonthYear(d, " " + ShortMonthNames[m - 1] + " " + Pad4(y) + rest) == Some(DatePart(d, m, y, rest))
  {
    var r4 := " " + (Pad4(y) + rest);
    var name := ShortMonthNames[m - 1];
    var r3 := name + r4;
    assert " " + name + " " + Pad4(y) + rest == " " + r3;
    assert Skip(" " + r3, " ") == Some(r3) by {
      assert name[0] != ' ' by { assert name in ShortMonthNames; }
      SkipOneSpace(r3);
    }
    LookupMonth(m - 1, r4);
    YearRoundTrip(d, m, y, rest);
  }

  lemma DateRoundTrip(wd: int, d: int, m: int, y: int, rest: string)
    requires 0 <= wd < 7 && 1 <= m <= 12 && 0 <= d < 100 && 0 <= y < 10000
    ensures ParseDatePart(DateText(wd, d, m, y) + rest) == Some(DatePart(d, m, y, rest))
  {
    var r2 := " " + ShortMonthNames[m - 1] + " " + Pad4(y) + rest;
    var r1 := Pad2(d) + r2;
    assert DateText(wd, d, m, y) + rest == ShortDayNames[wd] + (", " + r1);
    assert Lookup(ShortDayNames, ShortDayNames[wd] + (", " + r1)) == Some(Scan(wd, ", " + r1)) by {
      LookupDay(wd, ", " + r1);
    }
    assert Skip(", " + r1, ", ") == Some(r1) by {
      SkipCommaSpace(r1);
    }
    assert Num2(r1) == Some(Scan(d, r2)) by {
      Num2Pad(d, r2);
    }
    MonthYearRoundTrip(d, m, y, rest);
  }

  lemma ZoneTailRoundTrip(t: DateTime, dp: DatePart, cp: ClockPart)
    requires Writable(t)
    requires dp.day == t.day && dp.month == t.month && dp.year == t.year
    requires cp.hour == t.hour && cp.minute == t.minute && cp.second == t.second && cp.nanos == 0
    ensures ParseZone(dp, cp, " " + ZoneText(t.offset)) == Some(t)
  {
    var zt := ZoneText(t.offset);
    assert Skip(" " + zt, " ") == Some(zt) by {
      assert zt[0] == '-' || zt[0] == '+';
      SkipOneSpace(zt);
    }
    ZoneRoundTrip(t.offset);
  }

  lemma TimeOfDayRoundTrip(t: DateTime, dp: DatePart)
    requires Writable(t)
    requires dp.day == t.day && dp.month == t.month && dp.year == t.year
    ensures ParseTimeOfDay(dp, " " + (ClockText(t.hour, t.minute, t.second) + " " + ZoneText(t.offset))) == Some(t)
  {
    var r5 := " " + ZoneText(t.offset);
    var clock := ClockText(t.hour, t.minute, t.second) + r5;
    assert ClockText(t.hour, t.minute, t.second) + " " + ZoneText(t.offset) == clock;
    assert Skip(" " + clock, " ") == Some(clock) by {
      assert clock[0] == Pad2(t.hour)[0];
      SkipOneSpace(clock);
    }
    ClockRoundTrip(t.hour, t.minute, t.second, r5);
    ZoneTailRoundTrip(t, dp, ClockPart(t.hour, t.minute, t.second, 0, r5));
  }

  /** Every time the layout can write is read back unchanged, whatever weekday name is written. */
  lemma FormatParseRoundTrip(t: DateTime, weekday: int)
    requires Writable(t) && 0 <= weekday < 7
    ensures ParseRfc1123Z(FormatRfc1123Z(t, weekday)) == Some(t)
  {
    var r4 := " " + (ClockText(t.hour, t.minute, t.second) + " " + ZoneText(t.offset));
    assert FormatRfc1123Z(t, weekday) == DateText(weekday, t.day, t.month, t.year) + r4;
    DateRoundTrip(weekday, t.day, t.month, t.year, r4);
    TimeOfDayRoundTrip(t, DatePart(t.day, t.month, t.year, r4));
  }

  /** The reference time of Go's layouts, and its text in the RSS pubDate form. */
  const ReferenceTime := DateTime(2006, 1, 2, 15, 4, 5, 0, -25200)
  const ReferenceText := "Mon, 02 Jan 2006 15:04:05 -0700"

  lemma ReferenceFormatted()
    ensures FormatRfc1123Z(ReferenceTime, 1) == ReferenceText
  {
    ReferenceTexts();
    assert FormatRfc1123Z(ReferenceTime, 1) == "Mon, 02 Jan 2006" + " " + "15:04:05" + " " + "-0700";
  }

  lemma ReferencePubDate()
    ensures ParseRfc1123Z(ReferenceText) == Some(ReferenceTime)
  {
    ReferenceFormatted();
    FormatParseRoundTrip(ReferenceTime, 1);
  }

  lemma ReferenceTexts()
    ensures DateText(1, 2, 1, 2006) == "Mon, 02 Jan 2006"
    ensures ClockText(15, 4, 5) == "15:04:05"
    ensures ZoneText(-25200) == "-0700"
  {
    assert Pad4(2006) == "2006";
    assert Pad2(2) == "02";
  }

  /** A calendar date written as `2006-01-02` is read back as that day's midnight, UTC. */
  lemma IsoRoundTrip(y: int, m: int, d: int)
    requires 0 <= y < 10000 && 1 <= m <= 12 && 1 <= d <= DaysIn(m, y)
    ensures ParseIsoDate(Pad4(y) + "-" + Pad2(m) + "-" + Pad2(d)) == Some(DateTime(y, m, d, 0, 0, 0, 0, 0))
  {
    var r2 := "-" + (Pad2(d) + "");
    var r1 := Pad2(m) + r2;
    assert Pad4(y) + "-" + Pad2(m) + "-" + Pad2(d) == Pad4(y) + ("-" + r1);
    Year4Pad(y, "-" + r1);
    SkipLiteral('-', r1);
    Num2Pad(m, r2);
    SkipLiteral('-', Pad2(d) + "");
    Num2Pad(d, "");
  }
}
