/** UTC instants and their text form: printing, reading back, and why comparing the text compares
    the time even though a zero fraction is not printed (section 5.1 of RFC 3339). */
module IsoInstant {
  import opened Common
  import opened Text

  /** A UTC date and time in the range the printed form covers. */
  datatype Instant = Instant(year: int, month: int, day: int, hour: int, minute: int, second: int, micro: int)

  function DaysInMonth(year: int, month: int): int {
    if month == 2 then (if year % 4 == 0 && (year % 100 != 0 || year % 400 == 0) then 29 else 28)
    else if month in {4, 6, 9, 11} then 30 else 31
  }

  function LeapDay(year: int): int {
    if (year % 4 == 0 && year % 100 != 0) || year % 400 == 0 then 1 else 0
  }

  /** The Gregorian calendar: the lengths of the twelve months, the 365 or 366 days of each year. */
  lemma CalendarIs(year: int, month: int)
    requires 1 <= month <= 12
    ensures DaysInMonth(year, month) == [31, 28 + LeapDay(year), 31, 30, 31, 30, 31, 31, 30, 31, 30, 31][month - 1]
    ensures DaysInMonth(year, 1) + DaysInMonth(year, 2) + DaysInMonth(year, 3) + DaysInMonth(year, 4)
            + DaysInMonth(year, 5) + DaysInMonth(year, 6) + DaysInMonth(year, 7) + DaysInMonth(year, 8)
            + DaysInMonth(year, 9) + DaysInMonth(year, 10) + DaysInMonth(year, 11) + DaysInMonth(year, 12)
            == 365 + LeapDay(year)
  {
  }

  predicate Valid(t: Instant) {
    && 1 <= t.year <= 9999 && 1 <= t.month <= 12 && 1 <= t.day <= DaysInMonth(t.year, t.month)
    && 0 <= t.hour <= 23 && 0 <= t.minute <= 59 && 0 <= t.second <= 59 && 0 <= t.micro <= 999999
  }

  /** Earlier: the first differing field decides, as the calendar orders instants. */
  predicate Before(a: Instant, b: Instant) {
    a.year < b.year || (a.year == b.year &&
    (a.month < b.month || (a.month == b.month &&
    (a.day < b.day || (a.day == b.day &&
    (a.hour < b.hour || (a.hour == b.hour &&
    (a.minute < b.minute || (a.minute == b.minute &&
    (a.second < b.second || (a.second == b.second && a.micro < b.micro)))))))))))
  }

  // ---------------------------------------------------------------- decimal fields

  function Digit(d: int): char
    requires 0 <= d <= 9
  {
    (d + 48) as char
  }

  /** `n` in exactly `width` decimal digits. */
  function Padded(n: int, width: nat): (s: string)
    requires n >= 0
    ensures |s| == width
    ensures forall i :: 0 <= i < |s| ==> '0' <= s[i] <= '9'
  {
    if width == 0 then [] else Padded(n / 10, width - 1) + [Digit(n % 10)]
  }

  function Pow10(k: nat): int {
    if k == 0 then 1 else 10 * Pow10(k - 1)
  }

  function Value(s: string): Option<int> {
    if s == [] then Some(0)
    else
      var before := Value(s[..|s| - 1]);
      var c := s[|s| - 1];
      if before.Some? && '0' <= c <= '9' then Some(10 * before.value + (c as int - 48)) else None
  }

  lemma {:induction false} ValuePadded(n: int, width: nat)
    requires 0 <= n < Pow10(width)
    ensures Value(Padded(n, width)) == Some(n)
  {
    if width > 0 {
      ValuePadded(n / 10, width - 1);
      var s := Padded(n, width);
      assert s[..|s| - 1] == Padded(n / 10, width - 1);
    }
  }

  // ---------------------------------------------------------------- printing and reading

  /** Date and time of day, to the second. */
  function Clock(t: Instant): (s: string)
    requires Valid(t)
    ensures |s| == 19
  {
    Padded(t.year, 4) + ("-" + (Padded(t.month, 2) + ("-" + (Padded(t.day, 2) + ("T"
    + (Padded(t.hour, 2) + (":" + (Padded(t.minute, 2) + (":" + Padded(t.second, 2))))))))))
  }

  /** The fraction is printed, in six digits, only when it is not zero. */
  function Fraction(t: Instant): (s: string)
    requires Valid(t)
  {
    if t.micro == 0 then "" else "." + Padded(t.micro, 6)
  }

  const OFFSET := "+00:00"

  function Iso(t: Instant): string
    requires Valid(t)
  {
    Clock(t) + Fraction(t) + OFFSET
  }

  /** What reading a stored timestamp gives. `OtherForm` stands for every text that is not one of the
      printed shapes; the parser of the host language may still read some of those. */
  datatype Reading = Blank | Read(instant: Instant) | OtherForm

  predicate EndsWith(s: string, tail: string) {
    |s| >= |tail| && s[|s| - |tail|..] == tail
  }

  /** A final `Z` is rewritten to the numeric offset before reading. */
  function Zoned(text: string): string {
    if EndsWith(text, "Z") then text[..|text| - 1] + OFFSET else text
  }

  /** A missing offset means UTC. */
  function Unzoned(text: string): string {
    if EndsWith(text, OFFSET) then text[..|text| - |OFFSET|] else text
  }

  function ReadLocal(body: string): Reading {
    if !(|body| == 19 || (|body| == 26 && body[19] == '.')) then OtherForm
    else if body[4] != '-' || body[7] != '-' || body[10] != 'T' || body[13] != ':' || body[16] != ':' then OtherForm
    else
      var year, month, day := Value(body[..4]), Value(body[5..7]), Value(body[8..10]);
      var hour, minute, second := Value(body[11..13]), Value(body[14..16]), Value(body[17..19]);
      var micro := if |body| == 26 then Value(body[20..]) else Some(0);
      if year.Some? && month.Some? && day.Some? && hour.Some? && minute.Some? && second.Some? && micro.Some?
         && Valid(Instant(year.value, month.value, day.value, hour.value, minute.value, second.value, micro.value))
      then Read(Instant(year.value, month.value, day.value, hour.value, minute.value, second.value, micro.value))
      else OtherForm
  }

  function Parse(raw: string): Reading {
    var text := Strip(raw);
    if text == "" then Blank else ReadLocal(Unzoned(Zoned(text)))
  }

  lemma ClockParts(t: Instant)
    requires Valid(t)
    ensures var s := Clock(t);
            && s[..4] == Padded(t.year, 4) && s[4] == '-' && s[5..7] == Padded(t.month, 2) && s[7] == '-'
            && s[8..10] == Padded(t.day, 2) && s[10] == 'T' && s[11..13] == Padded(t.hour, 2) && s[13] == ':'
            && s[14..16] == Padded(t.minute, 2) && s[16] == ':' && s[17..19] == Padded(t.second, 2)
  {
  }

  lemma TwoDigitsBack(p: string, n: int)
    requires 0 <= n < 100 && p == Padded(n, 2)
    ensures Value(p) == Some(n)
  {
    assert Pow10(2) == 100;
    ValuePadded(n, 2);
  }

  lemma ClockValues(t: Instant)
    requires Valid(t)
    ensures var s := Clock(t);
            && Value(s[..4]) == Some(t.year) && Value(s[5..7]) == Some(t.month) && Value(s[8..10]) == Some(t.day)
            && Value(s[11..13]) == Some(t.hour) && Value(s[14..16]) == Some(t.minute)
            && Value(s[17..19]) == Some(t.second)
  {
    var s := Clock(t);
    ClockParts(t);
    assert Value(s[..4]) == Some(t.year) by {
      assert Pow10(4) == 10000;
      ValuePadded(t.year, 4);
    }
    TwoDigitsBack(s[5..7], t.month);
    TwoDigitsBack(s[8..10], t.day);
    TwoDigitsBack(s[11..13], t.hour);
    TwoDigitsBack(s[14..16], t.minute);
    TwoDigitsBack(s[17..19], t.second);
  }

  lemma SlicesOfPrefix(a: string, b: string, i: nat, j: nat)
    requires i <= j <= |a|
    ensures (a + b)[i..j] == a[i..j]
  {
  }

  /** Reading the parts of `clock + fraction` is reading the parts of the clock. */
  lemma ReadParts(clock: string, fraction: string, t: Instant)
    requires Valid(t) && |clock| == 19
    requires clock[4] == '-' && clock[7] == '-' && clock[10] == 'T' && clock[13] == ':' && clock[16] == ':'
    requires Value(clock[..4]) == Some(t.year) && Value(clock[5..7]) == Some(t.month)
    requires Value(clock[8..10]) == Some(t.day) && Value(clock[11..13]) == Some(t.hour)
    requires Value(clock[14..16]) == Some(t.minute) && Value(clock[17..19]) == Some(t.second)
    requires if t.micro == 0 then fraction == ""
             else |fraction| == 7 && fraction[0] == '.' && Value(fraction[1..]) == Some(t.micro)
    ensures ReadLocal(clock + fraction) == Read(t)
  {
    var body := clock + fraction;
    SlicesOfPrefix(clock, fraction, 0, 4);
    SlicesOfPrefix(clock, fraction, 5, 7);
    SlicesOfPrefix(clock, fraction, 8, 10);
    SlicesOfPrefix(clock, fraction, 11, 13);
    SlicesOfPrefix(clock, fraction, 14, 16);
    SlicesOfPrefix(clock, fraction, 17, 19);
    assert body[0..4] == body[..4] && clock[0..4] == clock[..4];
    if t.micro != 0 {
      assert body[20..] == fraction[1..];
    }
  }

  lemma LocalReadBack(t: Instant)
    requires Valid(t)
    ensures ReadLocal(Clock(t) + Fraction(t)) == Read(t)
  {
    ClockParts(t);
    ClockValues(t);
    assert Pow10(6) == 1000000;
    ValuePadded(t.micro, 6);
    assert t.micro != 0 ==> Fraction(t)[1..] == Padded(t.micro, 6);
    ReadParts(Clock(t), Fraction(t), t);
  }

  lemma LastOfConcat(a: string, b: string)
    requires b != []
    ensures (a + b)[|a + b| - 1] == b[|b| - 1] && (a + b)[..|a|] == a && (a + b)[|a|..] == b
  {
  }

  lemma ZonedCases(s: string)
    requires s != []
    ensures s[|s| - 1] != 'Z' ==> Zoned(s) == s
    ensures s[|s| - 1] == 'Z' ==> Zoned(s) == s[..|s| - 1] + OFFSET
  {
    assert s[|s| - 1..] == [s[|s| - 1]];
  }

  lemma UnzonedCases(s: string)
    requires |s| >= 6
    ensures s[|s| - 6] != '+' ==> Unzoned(s) == s
    ensures s[|s| - 6..] == OFFSET ==> Unzoned(s) == s[..|s| - 6]
  {
    assert s[|s| - 6..][0] == s[|s| - 6];
  }

  /** The offset, however spelled, is taken off again; the body may not look like one itself. */
  lemma OffsetSpellings(body: string)
    requires |body| >= 19 && '0' <= body[|body| - 1] <= '9' && body[|body| - 6] != '+'
    ensures Unzoned(Zoned(body + OFFSET)) == body
    ensures Unzoned(Zoned(body)) == body
    ensures Unzoned(Zoned(body + "Z")) == body
  {
    LastOfConcat(body, OFFSET);
    LastOfConcat(body, "Z");
    ZonedCases(body);
    ZonedCases(body + OFFSET);
    ZonedCases(body + "Z");
    UnzonedCases(body);
    UnzonedCases(body + OFFSET);
  }

  lemma ParseStripped(text: string)
    requires text != [] && !IsSpace(text[0]) && !IsSpace(text[|text| - 1])
    ensures Parse(text) == Parse([' '] + text) == ReadLocal(Unzoned(Zoned(text)))
  {
    StripFixed(text);
  }

  /** The body starts and ends in digits and has no plus sign where an offset would start. */
  lemma BodyShape(t: Instant)
    requires Valid(t)
    ensures var body := Clock(t) + Fraction(t);
            && '0' <= body[0] <= '9' && '0' <= body[|body| - 1] <= '9' && body[|body| - 6] != '+'
  {
    ClockParts(t);
    var s := Clock(t);
    assert s[0] == s[..4][0] && s[18] == s[17..19][1];
    assert s[13] == ':';
    if t.micro != 0 {
      var f := Fraction(t);
      assert |f| == 7 && f[1..] == Padded(t.micro, 6);
      assert f[1] == f[1..][0] && f[6] == f[1..][5];
      assert (s + f)[|s + f| - 6] == f[1];
    }
  }

  /** Reading undoes printing; the same instant is read from the `Z` spelling, from the spelling
      without offset, and with blanks in front. */
  lemma ParseUndoesIso(t: Instant)
    requires Valid(t)
    ensures Parse(Iso(t)) == Read(t)
    ensures Parse(Clock(t) + Fraction(t)) == Read(t)
    ensures Parse(Clock(t) + Fraction(t) + "Z") == Read(t)
    ensures Parse(" " + Iso(t)) == Read(t)
  {
    LocalReadBack(t);
    BodyShape(t);
    var body := Clock(t) + Fraction(t);
    OffsetSpellings(body);
    LastOfConcat(body, OFFSET);
    LastOfConcat(body, "Z");
    ParseStripped(body);
    ParseStripped(body + OFFSET);
    ParseStripped(body + "Z");
  }

  // ---------------------------------------------------------------- text order

  lemma FirstDecides(c: char, d: char, a: string, b: string)
    ensures TextLeq([c] + a, [d] + b) <==> (c < d || (c == d && TextLeq(a, b)))
  {
    assert ([c] + a)[1..] == a && ([d] + b)[1..] == b;
  }

  /** A fixed-width field decides as its number does; on a tie the rest decides. */
  lemma {:induction false} FieldDecides(n: int, m: int, width: nat, a: string, b: string)
    requires 0 <= n < Pow10(width) && 0 <= m < Pow10(width)
    ensures TextLeq(Padded(n, width) + a, Padded(m, width) + b) <==> (n < m || (n == m && TextLeq(a, b)))
  {
    if width == 0 {
      assert Padded(n, width) + a == a && Padded(m, width) + b == b;
    } else {
      var x, y := Digit(n % 10), Digit(m % 10);
      assert Padded(n, width) + a == Padded(n / 10, width - 1) + ([x] + a);
      assert Padded(m, width) + b == Padded(m / 10, width - 1) + ([y] + b);
      FieldDecides(n / 10, m / 10, width - 1, [x] + a, [y] + b);
      FirstDecides(x, y, a, b);
    }
  }

  /** A two-digit field after its separator. */
  lemma NextField(c: char, n: int, m: int, a: string, b: string)
    requires 0 <= n < 100 && 0 <= m < 100
    ensures TextLeq([c] + (Padded(n, 2) + a), [c] + (Padded(m, 2) + b)) <==> (n < m || (n == m && TextLeq(a, b)))
  {
    assert Pow10(2) == 100;
    FirstDecides(c, c, Padded(n, 2) + a, Padded(m, 2) + b);
    FieldDecides(n, m, 2, a, b);
  }

  /** The offset sorts before a fraction, which is what makes a dropped zero fraction come first. */
  lemma FractionDecides(a: Instant, b: Instant)
    requires Valid(a) && Valid(b)
    ensures TextLeq(Fraction(a) + OFFSET, Fraction(b) + OFFSET) <==> a.micro <= b.micro
  {
    assert Pow10(6) == 1000000;
    if a.micro != 0 && b.micro != 0 {
      assert Fraction(a) + OFFSET == ['.'] + (Padded(a.micro, 6) + OFFSET);
      assert Fraction(b) + OFFSET == ['.'] + (Padded(b.micro, 6) + OFFSET);
      FirstDecides('.', '.', Padded(a.micro, 6) + OFFSET, Padded(b.micro, 6) + OFFSET);
      FieldDecides(a.micro, b.micro, 6, OFFSET, OFFSET);
      TextLeqReflexive(OFFSET);
    } else if a.micro == 0 && b.micro == 0 {
      TextLeqReflexive(Fraction(a) + OFFSET);
    }
  }

  function FromSecond(t: Instant): string
    requires Valid(t)
  {
    [':'] + (Padded(t.second, 2) + (Fraction(t) + OFFSET))
  }

  function FromMinute(t: Instant): string
    requires Valid(t)
  {
    [':'] + (Padded(t.minute, 2) + FromSecond(t))
  }

  function FromHour(t: Instant): string
    requires Valid(t)
  {
    ['T'] + (Padded(t.hour, 2) + FromMinute(t))
  }

  function FromDay(t: Instant): string
    requires Valid(t)
  {
    ['-'] + (Padded(t.day, 2) + FromHour(t))
  }

  function FromMonth(t: Instant): string
    requires Valid(t)
  {
    ['-'] + (Padded(t.month, 2) + FromDay(t))
  }

  lemma IsoFields(t: Instant)
    requires Valid(t)
    ensures Iso(t) == Padded(t.year, 4) + FromMonth(t)
  {
  }

  /** For every two instants, comparing the printed text compares the time. */
  lemma TextOrderIsTimeOrder(a: Instant, b: Instant)
    requires Valid(a) && Valid(b)
    ensures TextLeq(Iso(a), Iso(b)) <==> a == b || Before(a, b)
  {
    IsoFields(a);
    IsoFields(b);
    assert Pow10(4) == 10000;
    FieldDecides(a.year, b.year, 4, FromMonth(a), FromMonth(b));
    NextField('-', a.month, b.month, FromDay(a), FromDay(b));
    NextField('-', a.day, b.day, FromHour(a), FromHour(b));
    NextField('T', a.hour, b.hour, FromMinute(a), FromMinute(b));
    NextField(':', a.minute, b.minute, FromSecond(a), FromSecond(b));
    NextField(':', a.second, b.second, Fraction(a) + OFFSET, Fraction(b) + OFFSET);
    FractionDecides(a, b);
  }

  // ---------------------------------------------------------------- the two expiry tests

  /** The sweep's test, on text. */
  predicate SweepSelects(lease: string, nowText: string) {
    lease != "" && TextLeq(lease, nowText)
  }

  /** The reader's test, on parsed times: a claimed lease still blocks unless it reads as a time that
      has been reached. */
  predicate StillBlocking(lease: string, now: Instant) {
    !(Parse(lease).Read? && !Before(now, Parse(lease).instant))
  }

  lemma BeforeIsTotal(a: Instant, b: Instant)
    ensures !Before(b, a) <==> a == b || Before(a, b)
  {
  }

  /** The sweep releases a lease exactly when the reader no longer honours it. */
  lemma SweepAgreesWithReader(lease: Instant, now: Instant)
    requires Valid(lease) && Valid(now)
    ensures SweepSelects(Iso(lease), Iso(now)) <==> !StillBlocking(Iso(lease), now)
    ensures !SweepSelects("", Iso(now)) && StillBlocking("", now)
  {
    TextOrderIsTimeOrder(lease, now);
    ParseUndoesIso(lease);
    BeforeIsTotal(lease, now);
  }
}
