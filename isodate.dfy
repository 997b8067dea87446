/** The `YYYY-MM-DD` date text that `toISODate` produces (the full-date
    form of section 5.6 of RFC 3339), and why the report may compare such
    texts as strings: for four-digit years, string order is calendar order
    (section 5.1 of RFC 3339). */
module IsoDate {

  datatype CivilDate = CivilDate(year: nat, month: nat, day: nat)

  /** A date whose fields fit the fixed-width text. */
  predicate Representable(d: CivilDate)
  {
    d.year < 10000 && 1 <= d.month <= 12 && 1 <= d.day <= 31
  }

  function DigitChar(n: nat): (c: char)
    requires n < 10
    ensures '0' <= c <= '9'
  {
    ('0' as int + n) as char
  }

  /** Zero-padded decimal text of one, two, three and four digits: each
      is the leading digit followed by the rest. */
  function Pad1(n: nat): (s: string)
    requires n < 10
    ensures |s| == 1
  {
    [DigitChar(n)]
  }

  function Pad2(n: nat): (s: string)
    requires n < 100
    ensures |s| == 2
  {
    [DigitChar(n / 10)] + Pad1(n % 10)
  }

  function Pad3(n: nat): (s: string)
    requires n < 1000
    ensures |s| == 3
  {
    [DigitChar(n / 100)] + Pad2(n % 100)
  }

  function Pad4(n: nat): (s: string)
    requires n < 10000
    ensures |s| == 4
  {
    [DigitChar(n / 1000)] + Pad3(n % 1000)
  }

  /** The date text `YYYY-MM-DD`. */
  function Format(d: CivilDate): (s: string)
    requires Representable(d)
    ensures |s| == 10 && s[4] == '-' && s[7] == '-'
  {
    Pad4(d.year) + "-" + Pad2(d.month) + "-" + Pad2(d.day)
  }

  /** JavaScript's `<=` on strings: lexicographic on character codes. */
  predicate TextLe(a: string, b: string)
  {
    if a == [] then true
    else if b == [] then false
    else a[0] < b[0] || (a[0] == b[0] && TextLe(a[1..], b[1..]))
  }

  /** Calendar order. */
  predicate DateLe(a: CivilDate, b: CivilDate)
  {
    a.year < b.year
    || (a.year == b.year && (a.month < b.month || (a.month == b.month && a.day <= b.day)))
  }

  /** Zero-padded numbers of one width compare as strings as they do as numbers. */
  lemma Pad1Order(a: nat, b: nat)
    requires a < 10 && b < 10
    ensures TextLe(Pad1(a), Pad1(b)) <==> a <= b
  {
    DigitCharOrder(a, b);
    assert Pad1(a)[1..] == [] == Pad1(b)[1..];
  }

  lemma Pad2Order(a: nat, b: nat)
    requires a < 100 && b < 100
    ensures TextLe(Pad2(a), Pad2(b)) <==> a <= b
  {
    TextLeCons(DigitChar(a / 10), DigitChar(b / 10), Pad1(a % 10), Pad1(b % 10));
    DigitCharOrder(a / 10, b / 10);
    Pad1Order(a % 10, b % 10);
  }

  lemma Pad3Order(a: nat, b: nat)
    requires a < 1000 && b < 1000
    ensures TextLe(Pad3(a), Pad3(b)) <==> a <= b
  {
    TextLeCons(DigitChar(a / 100), DigitChar(b / 100), Pad2(a % 100), Pad2(b % 100));
    DigitCharOrder(a / 100, b / 100);
    Pad2Order(a % 100, b % 100);
  }

  lemma Pad4Order(a: nat, b: nat)
    requires a < 10000 && b < 10000
    ensures TextLe(Pad4(a), Pad4(b)) <==> a <= b
  {
    TextLeCons(DigitChar(a / 1000), DigitChar(b / 1000), Pad3(a % 1000), Pad3(b % 1000));
    DigitCharOrder(a / 1000, b / 1000);
    Pad3Order(a % 1000, b % 1000);
  }

  /** Strings are compared by their first characters, then by the rest. */
  lemma TextLeCons(x: char, y: char, s: string, t: string)
    ensures TextLe([x] + s, [y] + t) <==> x < y || (x == y && TextLe(s, t))
  {
    assert ([x] + s)[1..] == s && ([y] + t)[1..] == t;
  }

  lemma DigitCharOrder(x: nat, y: nat)
    requires x < 10 && y < 10
    ensures DigitChar(x) < DigitChar(y) <==> x < y
    ensures DigitChar(x) == DigitChar(y) <==> x == y
  {
  }

  /** A leading part of the same width decides unless it is equal. */
  lemma {:induction false} TextLeAppend(a: string, b: string, a': string, b': string)
    requires |a| == |a'|
    ensures TextLe(a + b, a' + b') <==> (a != a' && TextLe(a, a')) || (a == a' && TextLe(b, b'))
  {
    if a != [] {
      assert (a + b)[0] == a[0] && (a + b)[1..] == a[1..] + b;
      assert (a' + b')[0] == a'[0] && (a' + b')[1..] == a'[1..] + b';
      TextLeAppend(a[1..], b, a'[1..], b');
      if a[0] == a'[0] {
        assert a == a' <==> a[1..] == a'[1..] by {
          assert a == [a[0]] + a[1..] && a' == [a'[0]] + a'[1..];
        }
      }
    } else {
      assert a + b == b && a' + b' == b';
    }
  }

  /** Equal texts of one width come from equal numbers. */
  lemma PadInjective(a: nat, b: nat, a': nat, b': nat)
    requires a < 10000 && b < 10000 && a' < 100 && b' < 100
    ensures Pad4(a) == Pad4(b) <==> a == b
    ensures Pad2(a') == Pad2(b') <==> a' == b'
  {
    Pad4Order(a, b);
    Pad4Order(b, a);
    Pad2Order(a', b');
    Pad2Order(b', a');
  }

  /** String order of the date texts is calendar order. */
  lemma FormatOrder(a: CivilDate, b: CivilDate)
    requires Representable(a) && Representable(b)
    ensures TextLe(Format(a), Format(b)) <==> DateLe(a, b)
  {
    var ya, yb := Pad4(a.year), Pad4(b.year);
    var ma, mb := Pad2(a.month), Pad2(b.month);
    var da, db := Pad2(a.day), Pad2(b.day);
    Pad4Order(a.year, b.year);
    Pad2Order(a.month, b.month);
    Pad2Order(a.day, b.day);
    PadInjective(a.year, b.year, a.month, b.month);
    assert Format(a) == (ya + "-") + ((ma + "-") + da);
    assert Format(b) == (yb + "-") + ((mb + "-") + db);
    TextLeAppend(ya + "-", (ma + "-") + da, yb + "-", (mb + "-") + db);
    TextLeAppend(ma + "-", da, mb + "-", db);
    TextLeAppend(ya, "-", yb, "-");
    TextLeAppend(ma, "-", mb, "-");
    assert ya + "-" == yb + "-" <==> ya == yb by {
      if ya + "-" == yb + "-" { assert ya == (ya + "-")[..4] == (yb + "-")[..4] == yb; }
    }
    assert ma + "-" == mb + "-" <==> ma == mb by {
      if ma + "-" == mb + "-" { assert ma == (ma + "-")[..2] == (mb + "-")[..2] == mb; }
    }
  }

  /** Formatting loses nothing: distinct dates have distinct texts. */
  lemma FormatInjective(a: CivilDate, b: CivilDate)
    requires Representable(a) && Representable(b)
    ensures Format(a) == Format(b) <==> a == b
  {
    FormatOrder(a, b);
    FormatOrder(b, a);
  }

  /** `filter((d) => d >= start && d <= end).length` on date texts. */
  function CountInText(dates: seq<string>, start: string, end: string): (n: nat)
    ensures n <= |dates|
  {
    if dates == [] then 0 else
      CountInText(dates[..|dates| - 1], start, end)
      + (if TextLe(start, dates[|dates| - 1]) && TextLe(dates[|dates| - 1], end) then 1 else 0)
  }

  /** The same count in calendar order. */
  function CountInCalendar(dates: seq<CivilDate>, start: CivilDate, end: CivilDate): (n: nat)
    ensures n <= |dates|
  {
    if dates == [] then 0 else
      CountInCalendar(dates[..|dates| - 1], start, end)
      + (if DateLe(start, dates[|dates| - 1]) && DateLe(dates[|dates| - 1], end) then 1 else 0)
  }

  /** Counting the completion texts by string comparison counts the dates
      that lie in the window in calendar order. */
  lemma {:induction false} TextCountIsCalendarCount(dates: seq<CivilDate>, start: CivilDate, end: CivilDate)
    requires Representable(start) && Representable(end)
    requires forall i :: 0 <= i < |dates| ==> Representable(dates[i])
    ensures CountInText(seq(|dates|, i requires 0 <= i < |dates| && Representable(dates[i]) => Format(dates[i])), Format(start), Format(end))
      == CountInCalendar(dates, start, end)
  {
    var texts := seq(|dates|, i requires 0 <= i < |dates| && Representable(dates[i]) => Format(dates[i]));
    if dates != [] {
      var init := dates[..|dates| - 1];
      var last := dates[|dates| - 1];
      TextCountIsCalendarCount(init, start, end);
      var initTexts := seq(|init|, i requires 0 <= i < |init| && Representable(init[i]) => Format(init[i]));
      assert texts[..|texts| - 1] == initTexts;
      FormatOrder(start, last);
      FormatOrder(last, end);
    }
  }

  /** `2026-01-05` is before `2026-01-12`, and `2025-12-29` before both. */
  lemma FormatExample()
    ensures Format(CivilDate(2026, 1, 5)) == "2026-01-05"
    ensures TextLe(Format(CivilDate(2025, 12, 29)), Format(CivilDate(2026, 1, 5)))
    ensures !TextLe(Format(CivilDate(2026, 1, 12)), Format(CivilDate(2026, 1, 5)))
  {
    FormatOrder(CivilDate(2025, 12, 29), CivilDate(2026, 1, 5));
    FormatOrder(CivilDate(2026, 1, 12), CivilDate(2026, 1, 5));
  }
}
