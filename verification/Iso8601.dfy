/** The UTC timestamp text of the reports, `YYYY-MM-DDTHH:MM:SSZ`, which they
    promise can be compared and sorted as text. */
module Iso8601 {
  import opened CivilCalendar
  import opened Options

  /** Zero-padded decimal: at least `width` digits, more when the number needs them. */
  function Padded(n: nat, width: nat): string
    decreases n, width
  {
    if n >= 10 then Padded(n / 10, if width > 0 then width - 1 else 0) + [Digit(n % 10)]
    else if width > 1 then Padded(0, width - 1) + [Digit(n)]
    else [Digit(n)]
  }

  function Digit(n: nat): char
    requires n < 10
  {
    '0' + n as char
  }

  /** The six fields as text; the grouping to the right is how they are compared. */
  function Stamp(d: Date, h: nat, m: nat, s: nat): string
    requires d.year >= 0 && d.month >= 0 && d.day >= 0
  {
    Padded(d.year, 4) + ("-" + (Padded(d.month, 2) + ("-" + (Padded(d.day, 2) + ("T" +
    (Padded(h, 2) + (":" + (Padded(m, 2) + (":" + (Padded(s, 2) + "Z"))))))))))
  }

  function FormatIso8601(secs: nat): string {
    var days := secs / 86400;
    var rem := secs % 86400;
    YearIsPositive(days);
    Stamp(CivilFromDays(days), rem / 3600, rem % 3600 / 60, rem % 60)
  }

  /** First second of the year 10000, where the year no longer has four digits. */
  const YEAR_10000: nat := 253402300800

  lemma YearIsPositive(days: nat)
    ensures IsDate(CivilFromDays(days)) && CivilFromDays(days).year >= 1970
  {
    CivilFromDaysIsCorrect(days);
    YearBounds(CivilFromDays(days));
  }

  /** The days 0 to 2932896 are the years 1970 to 9999. */
  lemma YearBounds(d: Date)
    requires IsDate(d)
    ensures d.year >= 1970 <==> DayNumber(d) >= 0
    ensures d.year < 10000 <==> DayNumber(d) < 2932897
  {
    assert DayNumber(Date(1970, 1, 1)) == 0;
    DayNumberIsMonotone(d, Date(1970, 1, 1));
    FirstOf10000();
    DayNumberIsMonotone(d, Date(10000, 1, 1));
  }

  lemma FirstOf10000()
    ensures DayNumber(Date(10000, 1, 1)) == 2932897
  {
    DaysToYearClosed(10000);
  }

  /** The layout, on two instants. */
  lemma FirstTexts()
    ensures FormatIso8601(0)
            == "1970" + ("-" + ("01" + ("-" + ("01" + ("T" + ("00" + (":" + ("00" + (":" + ("00" + "Z"))))))))))
    ensures FormatIso8601(172798)
            == "1970" + ("-" + ("01" + ("-" + ("02" + ("T" + ("23" + (":" + ("59" + (":" + ("58" + "Z"))))))))))
  {
    hide Padded, CivilFromDays;
    FirstDays();
    FirstFields();
    assert (172798 / 86400, 172798 % 86400) == (1, 86398);
    assert (86398 / 3600, 86398 % 3600 / 60, 86398 % 60) == (23, 59, 58);
  }

  lemma FirstFields()
    ensures Padded(1970, 4) == "1970" && Padded(0, 2) == "00" && Padded(1, 2) == "01" && Padded(2, 2) == "02"
    ensures Padded(23, 2) == "23" && Padded(58, 2) == "58" && Padded(59, 2) == "59"
  {
    hide Padded;
    Year1970();
    TwoDigits(0);
    TwoDigits(1);
    TwoDigits(2);
    TwoDigits(23);
    TwoDigits(58);
    TwoDigits(59);
  }

  lemma FirstDays()
    ensures CivilFromDays(0) == Date(1970, 1, 1) && CivilFromDays(1) == Date(1970, 1, 2)
  {
    var a, b := Date(1970, 1, 1), Date(1970, 1, 2);
    assert DayNumber(a) == 0 && DayNumber(b) == 1;
    hide DayNumber, CivilFromDays;
    CivilFromDaysIsCorrect(0);
    CivilFromDaysIsCorrect(1);
    DayNumberIsMonotone(CivilFromDays(0), a);
    DayNumberIsMonotone(a, CivilFromDays(0));
    DayNumberIsMonotone(CivilFromDays(1), b);
    DayNumberIsMonotone(b, CivilFromDays(1));
  }

  lemma Year1970()
    ensures Padded(1970, 4) == "1970"
  {
    assert Padded(1, 1) == "1";
    assert Padded(19, 2) == Padded(1, 1) + "9";
    assert Padded(197, 3) == Padded(19, 2) + "7";
    assert Padded(1970, 4) == Padded(197, 3) + "0";
  }

  lemma TwoDigits(n: nat)
    requires n < 100
    ensures Padded(n, 2) == [Digit(n / 10), Digit(n % 10)]
  {
    assert Padded(n / 10, 1) == [Digit(n / 10)];
  }

  lemma YearHasFourDigits(secs: nat)
    requires secs < YEAR_10000
    ensures CivilFromDays(secs / 86400).year < 10000
  {
    CivilFromDaysIsCorrect(secs / 86400);
    YearBounds(CivilFromDays(secs / 86400));
  }

  // ---------- text order ----------

  predicate TextBefore(a: string, b: string) {
    |b| > 0 && (|a| == 0 || a[0] < b[0] || (a[0] == b[0] && TextBefore(a[1..], b[1..])))
  }

  lemma {:induction false} HeadDecides(x: string, y: string, u: string, v: string)
    requires |x| == |y| && TextBefore(x, y)
    ensures TextBefore(x + u, y + v)
  {
    if x[0] == y[0] {
      HeadDecides(x[1..], y[1..], u, v);
      assert (x + u)[1..] == x[1..] + u && (y + v)[1..] == y[1..] + v;
    }
  }

  lemma {:induction false} CommonHead(x: string, u: string, v: string)
    ensures TextBefore(x + u, x + v) == TextBefore(u, v)
  {
    if x == "" {
      assert x + u == u && x + v == v;
    } else {
      CommonHead(x[1..], u, v);
      assert (x + u)[1..] == x[1..] + u && (x + v)[1..] == x[1..] + v;
    }
  }

  lemma {:induction false} NotBeforeItself(a: string, b: string)
    ensures !(TextBefore(a, b) && TextBefore(b, a)) && !TextBefore(a, a)
  {
    if a != "" && b != "" { NotBeforeItself(a[1..], b[1..]); }
    if a != "" && b == "" { NotBeforeItself(a[1..], b); }
  }

  function Power10(w: nat): nat { if w == 0 then 1 else 10 * Power10(w - 1) }

  lemma {:induction false} PaddedWidth(n: nat, w: nat)
    requires w >= 1 && n < Power10(w)
    ensures |Padded(n, w)| == w
    decreases w
  {
    if w > 1 { PaddedWidth(n / 10, w - 1); }
  }

  /** Equal-width decimals compare as their numbers do. */
  lemma {:induction false} PaddedOrder(m: nat, n: nat, w: nat)
    requires w >= 1 && m < n < Power10(w)
    ensures |Padded(m, w)| == |Padded(n, w)| == w
    ensures TextBefore(Padded(m, w), Padded(n, w))
    decreases w
  {
    PaddedWidth(m, w);
    PaddedWidth(n, w);
    if w > 1 {
      var p, q := Padded(m / 10, w - 1), Padded(n / 10, w - 1);
      assert Padded(m, w) == p + [Digit(m % 10)];
      assert Padded(n, w) == q + [Digit(n % 10)];
      if m / 10 < n / 10 {
        PaddedOrder(m / 10, n / 10, w - 1);
        HeadDecides(p, q, [Digit(m % 10)], [Digit(n % 10)]);
      } else {
        CommonHead(p, [Digit(m % 10)], [Digit(n % 10)]);
      }
    }
  }

  /** One field followed by the rest of the text. */
  lemma FieldOrder(m: nat, n: nat, w: nat, u: string, v: string)
    requires w >= 1 && m <= n < Power10(w)
    requires m == n ==> TextBefore(u, v)
    ensures TextBefore(Padded(m, w) + u, Padded(n, w) + v)
  {
    if m < n {
      PaddedOrder(m, n, w);
      HeadDecides(Padded(m, w), Padded(n, w), u, v);
    } else {
      CommonHead(Padded(m, w), u, v);
    }
  }

  predicate TimeBefore(h: nat, m: nat, s: nat, h': nat, m': nat, s': nat) {
    h < h' || (h == h' && m < m') || (h == h' && m == m' && s < s')
  }

  lemma ClockOrder(h: nat, m: nat, s: nat, h': nat, m': nat, s': nat)
    requires h < 100 && h' < 100 && m < 100 && m' < 100 && s < 100 && s' < 100
    requires TimeBefore(h, m, s, h', m', s')
    ensures TextBefore(
      Padded(h, 2) + (":" + (Padded(m, 2) + (":" + (Padded(s, 2) + "Z")))),
      Padded(h', 2) + (":" + (Padded(m', 2) + (":" + (Padded(s', 2) + "Z")))))
  {
    assert Power10(2) == 100;
    var u, u' := Padded(s, 2) + "Z", Padded(s', 2) + "Z";
    var v, v' := Padded(m, 2) + (":" + u), Padded(m', 2) + (":" + u');
    if h == h' {
      if m == m' {
        FieldOrder(s, s', 2, "Z", "Z");
        CommonHead(":", u, u');
      }
      FieldOrder(m, m', 2, ":" + u, ":" + u');
      CommonHead(":", v, v');
    }
    FieldOrder(h, h', 2, ":" + v, ":" + v');
  }

  lemma StampOrder(a: Date, b: Date, h: nat, m: nat, s: nat, h': nat, m': nat, s': nat)
    requires IsDate(a) && IsDate(b) && 0 <= a.year < 10000 && 0 <= b.year < 10000
    requires h < 24 && h' < 24 && m < 60 && m' < 60 && s < 60 && s' < 60
    requires Before(a, b) || (a == b && TimeBefore(h, m, s, h', m', s'))
    ensures TextBefore(Stamp(a, h, m, s), Stamp(b, h', m', s'))
  {
    assert Power10(2) == 100 && Power10(4) == 10000;
    var t := Padded(h, 2) + (":" + (Padded(m, 2) + (":" + (Padded(s, 2) + "Z"))));
    var t' := Padded(h', 2) + (":" + (Padded(m', 2) + (":" + (Padded(s', 2) + "Z"))));
    var u, u' := Padded(a.day, 2) + ("T" + t), Padded(b.day, 2) + ("T" + t');
    var v, v' := Padded(a.month, 2) + ("-" + u), Padded(b.month, 2) + ("-" + u');
    if a.year == b.year {
      if a.month == b.month {
        if a.day == b.day {
          ClockOrder(h, m, s, h', m', s');
          CommonHead("T", t, t');
        }
        FieldOrder(a.day, b.day, 2, "T" + t, "T" + t');
        CommonHead("-", u, u');
      }
      FieldOrder(a.month, b.month, 2, "-" + u, "-" + u');
      CommonHead("-", v, v');
    }
    FieldOrder(a.year, b.year, 4, "-" + v, "-" + v');
  }

  /** The clock part of a second of the day. */
  lemma ClockParts(rem: nat)
    requires rem < 86400
    ensures rem / 3600 < 24 && rem % 3600 / 60 < 60 && rem % 60 < 60
    ensures rem / 3600 * 3600 + rem % 3600 / 60 * 60 + rem % 60 == rem
  {}

  lemma DatedOrder(a: Date, b: Date, r: nat, t: nat)
    requires IsDate(a) && IsDate(b) && 0 <= a.year < 10000 && 0 <= b.year < 10000
    requires r < 86400 && t < 86400
    requires DayNumber(a) < DayNumber(b) || (DayNumber(a) == DayNumber(b) && r < t)
    ensures TextBefore(Stamp(a, r / 3600, r % 3600 / 60, r % 60), Stamp(b, t / 3600, t % 3600 / 60, t % 60))
  {
    ClockParts(r);
    ClockParts(t);
    DayNumberIsMonotone(a, b);
    StampOrder(a, b, r / 3600, r % 3600 / 60, r % 60, t / 3600, t % 3600 / 60, t % 60);
  }

  lemma LaterSecondSortsLater(a: nat, b: nat)
    requires a < b < YEAR_10000
    ensures TextBefore(FormatIso8601(a), FormatIso8601(b))
  {
    YearIsPositive(a / 86400);
    YearIsPositive(b / 86400);
    YearHasFourDigits(a);
    YearHasFourDigits(b);
    CivilFromDaysIsCorrect(a / 86400);
    CivilFromDaysIsCorrect(b / 86400);
    DatedOrder(CivilFromDays(a / 86400), CivilFromDays(b / 86400), a % 86400, b % 86400);
  }

  /** Text order is time order, and distinct seconds have distinct texts. */
  lemma TextOrderIsTimeOrder(a: nat, b: nat)
    requires a < YEAR_10000 && b < YEAR_10000
    ensures TextBefore(FormatIso8601(a), FormatIso8601(b)) <==> a < b
    ensures FormatIso8601(a) == FormatIso8601(b) <==> a == b
  {
    if a < b { LaterSecondSortsLater(a, b); }
    if b < a { LaterSecondSortsLater(b, a); }
    NotBeforeItself(FormatIso8601(a), FormatIso8601(b));
    NotBeforeItself(FormatIso8601(a), FormatIso8601(a));
  }

  lemma FormatOfDate(secs: nat, d: Date)
    requires IsDate(d) && d.year >= 0 && DayNumber(d) == secs / 86400
    ensures FormatIso8601(secs) == Stamp(d, secs % 86400 / 3600, secs % 86400 % 3600 / 60, secs % 86400 % 60)
  {
    CivilRoundTrip(d);
  }

  /** The bound is sharp: the next second already sorts before its predecessor. */
  lemma OrderBreaksAtYear10000()
    ensures TextBefore(FormatIso8601(YEAR_10000), FormatIso8601(YEAR_10000 - 1))
  {
    FirstOf10000();
    LastOf9999();
    FormatOfDate(YEAR_10000, Date(10000, 1, 1));
    FormatOfDate(YEAR_10000 - 1, Date(9999, 12, 31));
    LeadingDigits();
  }

  /** Timestamps of all seconds before a limit sort as text. */
  ghost predicate SortAsText(limit: nat) {
    forall a: nat, b: nat :: a < b < limit ==> TextBefore(FormatIso8601(a), FormatIso8601(b))
  }

  /** ... if and only if the limit is not past the end of the year 9999. */
  lemma SortableExactlyBefore10000(limit: nat)
    ensures SortAsText(limit) <==> limit <= YEAR_10000
  {
    hide FormatIso8601, TextBefore;
    forall a: nat, b: nat | a < b < limit && limit <= YEAR_10000
      ensures TextBefore(FormatIso8601(a), FormatIso8601(b))
    {
      LaterSecondSortsLater(a, b);
    }
    if limit > YEAR_10000 {
      OrderBreaksAtYear10000();
      NotBeforeItself(FormatIso8601(YEAR_10000), FormatIso8601(YEAR_10000 - 1));
      assert YEAR_10000 - 1 < YEAR_10000 < limit;
    }
  }

  lemma LastOf9999()
    ensures DayNumber(Date(9999, 12, 31)) == 2932896
  {
    FirstOf10000();
    NextDayIsNextNumber(Date(9999, 12, 31));
  }

  lemma LeadingDigits()
    ensures Stamp(Date(10000, 1, 1), 0, 0, 0)[0] == '1'
    ensures Stamp(Date(9999, 12, 31), 23, 59, 59)[0] == '9'
  {
    assert Padded(10000, 4) == Padded(1000, 3) + "0";
    assert Padded(1000, 3) == Padded(100, 2) + "0";
    assert Padded(100, 2) == Padded(10, 1) + "0";
    assert Padded(10, 1) == Padded(1, 0) + "0" == "10";
    assert Padded(9999, 4) == Padded(999, 3) + "9";
    assert Padded(999, 3) == Padded(99, 2) + "9";
    assert Padded(99, 2) == Padded(9, 1) + "9" == "99";
  }

  // ---------- reading the text back ----------

  function Number(t: string): Option<nat> {
    if t == "" then None
    else if !('0' <= t[|t| - 1] <= '9') then None
    else
      var d := (t[|t| - 1] - '0') as nat;
      if |t| == 1 then Some(d)
      else match Number(t[..|t| - 1])
        case None => None
        case Some(n) => Some(10 * n + d)
  }

  /** Reads a UTC date-time of the RFC 3339 section 5.6 profile back into seconds. */
  function ParseIso8601(t: string): Option<int> {
    if |t| != 20 || t[4] != '-' || t[7] != '-' || t[10] != 'T'
       || t[13] != ':' || t[16] != ':' || t[19] != 'Z' then None
    else match (Number(t[..4]), Number(t[5..7]), Number(t[8..10]),
                Number(t[11..13]), Number(t[14..16]), Number(t[17..19]))
      case (Some(y), Some(mo), Some(d), Some(h), Some(mi), Some(s)) =>
        if IsDate(Date(y, mo, d)) && h < 24 && mi < 60 && s < 60
        then Some(DayNumber(Date(y, mo, d)) * 86400 + h * 3600 + mi * 60 + s)
        else None
      case _ => None
  }

  lemma {:induction false} NumberReadsPadded(n: nat, w: nat)
    requires w >= 1 && n < Power10(w)
    ensures |Padded(n, w)| == w && Number(Padded(n, w)) == Some(n)
    decreases w
  {
    if w > 1 {
      NumberReadsPadded(n / 10, w - 1);
      var p := Padded(n / 10, w - 1);
      assert Padded(n, w) == p + [Digit(n % 10)];
      assert (p + [Digit(n % 10)])[..|p|] == p;
    }
  }

  /** One field, its separator, and the rest, at offset `k` of the text. */
  lemma FieldAt(t: string, k: nat, f: string, sep: string, rest: string)
    requires k <= |t| && |sep| == 1 && t[k..] == f + (sep + rest)
    ensures k + |f| + 1 <= |t| && t[k..k + |f|] == f && t[k + |f|] == sep[0] && t[k + |f| + 1..] == rest
  {
    var u := t[k..];
    assert u[..|f|] == f && u[|f|] == sep[0] && u[|f| + 1..] == rest;
  }

  lemma DateSlices(t: string, y: string, mo: string, d: string, rest: string)
    requires |y| == 4 && |mo| == 2 && |d| == 2
    requires t == y + ("-" + (mo + ("-" + (d + ("T" + rest)))))
    ensures |t| >= 11 && t[4] == '-' && t[7] == '-' && t[10] == 'T'
    ensures t[..4] == y && t[5..7] == mo && t[8..10] == d && t[11..] == rest
  {
    var r2 := d + ("T" + rest);
    assert t[0..] == t;
    FieldAt(t, 0, y, "-", mo + ("-" + r2));
    FieldAt(t, 5, mo, "-", r2);
    FieldAt(t, 8, d, "T", rest);
  }

  lemma ClockSlices(t: string, h: string, mi: string, s: string)
    requires |h| == 2 && |mi| == 2 && |s| == 2 && |t| >= 11
    requires t[11..] == h + (":" + (mi + (":" + (s + "Z"))))
    ensures |t| == 20 && t[13] == ':' && t[16] == ':' && t[19] == 'Z'
    ensures t[11..13] == h && t[14..16] == mi && t[17..19] == s
  {
    var r := mi + (":" + (s + "Z"));
    FieldAt(t, 11, h, ":", r);
    FieldAt(t, 14, mi, ":", s + "Z");
    assert s + "Z" == s + ("Z" + "");
    FieldAt(t, 17, s, "Z", "");
  }

  /** The slices of the text are its fields. */
  lemma StampSlices(t: string, y: string, mo: string, d: string, h: string, mi: string, s: string)
    requires |y| == 4 && |mo| == 2 && |d| == 2 && |h| == 2 && |mi| == 2 && |s| == 2
    requires t == y + ("-" + (mo + ("-" + (d + ("T" + (h + (":" + (mi + (":" + (s + "Z"))))))))))
    ensures |t| == 20 && t[4] == '-' && t[7] == '-' && t[10] == 'T'
    ensures t[13] == ':' && t[16] == ':' && t[19] == 'Z'
    ensures t[..4] == y && t[5..7] == mo && t[8..10] == d
    ensures t[11..13] == h && t[14..16] == mi && t[17..19] == s
  {
    DateSlices(t, y, mo, d, h + (":" + (mi + (":" + (s + "Z")))));
    ClockSlices(t, h, mi, s);
  }

  lemma ParseReadsStamp(d: Date, h: nat, m: nat, s: nat)
    requires IsDate(d) && 0 <= d.year < 10000 && h < 24 && m < 60 && s < 60
    ensures ParseIso8601(Stamp(d, h, m, s)) == Some(DayNumber(d) * 86400 + h * 3600 + m * 60 + s)
  {
    FieldsReadBack(d.year, d.month, d.day);
    FieldsReadBack(0, h, m);
    FieldsReadBack(0, s, s);
    StampSlices(Stamp(d, h, m, s), Padded(d.year, 4), Padded(d.month, 2), Padded(d.day, 2),
                Padded(h, 2), Padded(m, 2), Padded(s, 2));
    ParseReadsFields(Stamp(d, h, m, s), d, h, m, s);
  }

  lemma FieldsReadBack(x: nat, y: nat, z: nat)
    requires x < 10000 && y < 100 && z < 100
    ensures |Padded(x, 4)| == 4 && Number(Padded(x, 4)) == Some(x)
    ensures |Padded(y, 2)| == 2 && Number(Padded(y, 2)) == Some(y)
    ensures |Padded(z, 2)| == 2 && Number(Padded(z, 2)) == Some(z)
  {
    assert Power10(2) == 100 && Power10(4) == 10000;
    NumberReadsPadded(x, 4);
    NumberReadsPadded(y, 2);
    NumberReadsPadded(z, 2);
  }

  lemma ParseReadsFields(t: string, d: Date, h: nat, m: nat, s: nat)
    requires IsDate(d) && d.year >= 0 && h < 24 && m < 60 && s < 60
    requires |t| == 20 && t[4] == '-' && t[7] == '-' && t[10] == 'T'
    requires t[13] == ':' && t[16] == ':' && t[19] == 'Z'
    requires Number(t[..4]) == Some(d.year) && Number(t[5..7]) == Some(d.month)
    requires Number(t[8..10]) == Some(d.day) && Number(t[11..13]) == Some(h)
    requires Number(t[14..16]) == Some(m) && Number(t[17..19]) == Some(s)
    ensures ParseIso8601(t) == Some(DayNumber(d) * 86400 + h * 3600 + m * 60 + s)
  {}

  lemma ParseReadsDated(d: Date, rem: nat)
    requires IsDate(d) && 0 <= d.year < 10000 && rem < 86400
    ensures ParseIso8601(Stamp(d, rem / 3600, rem % 3600 / 60, rem % 60)) == Some(DayNumber(d) * 86400 + rem)
  {
    hide ParseIso8601, Stamp, DayNumber;
    ClockParts(rem);
    ParseReadsStamp(d, rem / 3600, rem % 3600 / 60, rem % 60);
  }

  /** Round trip: the text determines the second. */
  lemma ParseReadsFormat(secs: nat)
    requires secs < YEAR_10000
    ensures ParseIso8601(FormatIso8601(secs)) == Some(secs)
  {
    hide CivilFromDays, ParseIso8601, Stamp, IsDate;
    YearIsPositive(secs / 86400);
    YearHasFourDigits(secs);
    CivilFromDaysIsCorrect(secs / 86400);
    ParseReadsDated(CivilFromDays(secs / 86400), secs % 86400);
  }

  lemma PaddedStep(n: nat, d: nat, w: nat)
    requires d < 10 && w > 1
    ensures Padded(10 * n + d, w) == Padded(n, w - 1) + [Digit(d)]
  {
    assert (10 * n + d) / 10 == n && (10 * n + d) % 10 == d;
  }

  lemma {:induction false} PaddedReadsNumber(t: string)
    ensures Number(t).Some? ==> Number(t).value < Power10(|t|) && Padded(Number(t).value, |t|) == t
  {
    if Number(t).Some? && |t| > 1 {
      var p := t[..|t| - 1];
      PaddedReadsNumber(p);
      var d := (t[|t| - 1] - '0') as nat;
      assert Number(t).value == 10 * Number(p).value + d;
      PaddedStep(Number(p).value, d, |t|);
      assert t == p + [t[|t| - 1]];
    }
  }

  lemma StampOfText(t: string, d: Date, h: nat, m: nat, s: nat)
    requires |t| == 20 && t[4] == '-' && t[7] == '-' && t[10] == 'T'
    requires t[13] == ':' && t[16] == ':' && t[19] == 'Z'
    requires d.year >= 0 && d.month >= 0 && d.day >= 0
    requires Padded(d.year, 4) == t[..4] && Padded(d.month, 2) == t[5..7] && Padded(d.day, 2) == t[8..10]
    requires Padded(h, 2) == t[11..13] && Padded(m, 2) == t[14..16] && Padded(s, 2) == t[17..19]
    ensures Stamp(d, h, m, s) == t
  {
    assert t == t[..4] + ("-" + (t[5..7] + ("-" + (t[8..10] + ("T" +
                (t[11..13] + (":" + (t[14..16] + (":" + (t[17..19] + "Z"))))))))));
  }

  /** The other direction: every readable text from 1970 on is the one the formatter writes. */
  lemma FormatReadsParse(t: string)
    requires ParseIso8601(t).Some? && ParseIso8601(t).value >= 0
    ensures FormatIso8601(ParseIso8601(t).value) == t
  {
    PaddedReadsNumber(t[..4]);
    PaddedReadsNumber(t[5..7]);
    PaddedReadsNumber(t[8..10]);
    PaddedReadsNumber(t[11..13]);
    PaddedReadsNumber(t[14..16]);
    PaddedReadsNumber(t[17..19]);
    var d := Date(Number(t[..4]).value, Number(t[5..7]).value, Number(t[8..10]).value);
    var h, m, s := Number(t[11..13]).value, Number(t[14..16]).value, Number(t[17..19]).value;
    StampOfText(t, d, h, m, s);
    SecondsSplit(ParseIso8601(t).value, DayNumber(d), h, m, s);
    FormatOfDate(ParseIso8601(t).value, d);
  }

  lemma SecondsSplit(n: nat, day: int, h: nat, m: nat, s: nat)
    requires n == day * 86400 + h * 3600 + m * 60 + s && h < 24 && m < 60 && s < 60
    ensures n / 86400 == day && n % 86400 / 3600 == h && n % 86400 % 3600 / 60 == m && n % 86400 % 60 == s
  {
    var rem := h * 3600 + m * 60 + s;
    assert n / 86400 == day && n % 86400 == rem;
    assert rem % 3600 == m * 60 + s;
  }

  // ---------- the timestamp of the release receipt ----------

  lemma UnsignedDateIsPositive(days: nat)
    ensures IsDate(UnsignedCivilFromDays(days)) && UnsignedCivilFromDays(days).year >= 1970
  {
    UnsignedCopyAgrees(days);
    YearIsPositive(days);
  }

  function ReleaseTimestamp(secs: nat): string {
    var timeOfDay := secs % 86400;
    UnsignedDateIsPositive(secs / 86400);
    Stamp(UnsignedCivilFromDays(secs / 86400), timeOfDay / 3600, timeOfDay % 3600 / 60, timeOfDay % 60)
  }

  /** Both timestamp writers produce the same text for every second. */
  lemma TimestampsAgree(secs: nat)
    ensures ReleaseTimestamp(secs) == FormatIso8601(secs)
  {
    UnsignedCopyAgrees(secs / 86400);
    YearIsPositive(secs / 86400);
  }
}
