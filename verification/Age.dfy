/** The 18th-birthday test (pkg/domain/age.go) and the parsing of a date of birth
    in front of it (internal/decision/models.go). */
module Age {
  import opened Common
  import opened Calendar

  // A point in time read in UTC: its date and the nanoseconds since midnight.
  const DAY: int := 24 * 3600 * 1_000_000_000

  datatype Stamp = Stamp(date: Date, clock: int)

  predicate ValidStamp(s: Stamp) {
    Valid(s.date) && 0 <= s.clock < DAY
  }

  // Every time of day to the nanosecond is one.
  lemma EveryTimeOfDay(date: Date, hour: int, minute: int, second: int, nano: int)
    requires Valid(date) && 0 <= hour < 24 && 0 <= minute < 60 && 0 <= second < 60 && 0 <= nano < 1_000_000_000
    ensures ValidStamp(Stamp(date, ((hour * 60 + minute) * 60 + second) * 1_000_000_000 + nano))
    ensures !ValidStamp(Stamp(date, 24 * 60 * 60 * 1_000_000_000))
  {
  }

  function Instant(year: int, month: int, day: int, clock: int): int
    requires 1 <= month <= 12
  {
    DayNumber(year, month, day) * DAY + clock
  }

  // AddDate(18, 0, 0) keeps month, day and clock and lets the day run over; then instants are compared.
  predicate IsOver18(birth: Stamp, now: Stamp)
    requires ValidStamp(birth) && ValidStamp(now)
  {
    var adultAt := Instant(birth.date.year + 18, birth.date.month, birth.date.day, birth.clock);
    !(Instant(now.date.year, now.date.month, now.date.day, now.clock) < adultAt)
  }

  // ----- against comparing dates -----

  // The same birthday eighteen years later, which need not exist in that year.
  function Birthday(birth: Stamp): Stamp {
    Stamp(Date(birth.date.year + 18, birth.date.month, birth.date.day), birth.clock)
  }

  predicate Earlier(a: Stamp, b: Stamp) {
    Before(a.date, b.date) || (a.date == b.date && a.clock < b.clock)
  }

  // Born on a leap day and eighteen in a year without one.
  predicate LosesBirthday(birth: Stamp) {
    birth.date.month == 2 && birth.date.day == 29 && !IsLeap(birth.date.year + 18)
  }

  // Asked on the first of March instead, earlier in the day than the birth.
  predicate LeapDayMorning(birth: Stamp, now: Stamp) {
    && LosesBirthday(birth)
    && now.date == Date(birth.date.year + 18, 3, 1)
    && now.clock < birth.clock
  }

  lemma InstantOrder(m: int, a: int, n: int, b: int)
    requires 0 <= a < DAY && 0 <= b < DAY
    ensures m * DAY + a < n * DAY + b <==> m < n || (m == n && a < b)
  {
    if m < n {
      assert (m + 1) * DAY <= n * DAY;
    } else if n < m {
      assert (n + 1) * DAY <= m * DAY;
    }
  }

  // An instant order between valid stamps is the lexicographic one.
  lemma StampOrder(a: Stamp, b: Stamp)
    requires ValidStamp(a) && ValidStamp(b)
    ensures Earlier(a, b) <==>
              Instant(a.date.year, a.date.month, a.date.day, a.clock) <
                Instant(b.date.year, b.date.month, b.date.day, b.clock)
  {
    OrderIsCount(a.date, b.date);
    OrderIsCount(b.date, a.date);
    InstantOrder(DayNumber(a.date.year, a.date.month, a.date.day), a.clock,
        DayNumber(b.date.year, b.date.month, b.date.day), b.clock);
  }

  // The day after the 28th of February of an ordinary year is the first of March.
  lemma RunsOver(year: int)
    requires !IsLeap(year)
    ensures DayNumber(year, 2, 29) == DayNumber(year, 3, 1)
  {
  }

  lemma BirthdayValid(birth: Stamp)
    requires ValidStamp(birth)
    ensures Valid(Birthday(birth).date) <==> !LosesBirthday(birth)
  {
  }

  /** The test is the comparison of dates, then of times of day, with the
      birthday eighteen years later: it differs exactly for a birth on a leap
      day, when the birthday runs over to the first of March and the time of day
      on that day still counts. For dates of birth without a time of day it never differs. */
  lemma IsOver18Iff(birth: Stamp, now: Stamp)
    requires ValidStamp(birth) && ValidStamp(now)
    ensures var d := birth.date;
            && ((IsOver18(birth, now) <==> !Earlier(now, Stamp(Date(d.year + 18, d.month, d.day), birth.clock))) <==>
                  !LeapDayMorning(birth, now))
            && (birth.clock == 0 ==>
                  (IsOver18(birth, now) <==> !Before(now.date, Date(d.year + 18, d.month, d.day))))
  {
    BirthdayValid(birth);
    if LosesBirthday(birth) {
      var march := Stamp(Date(birth.date.year + 18, 3, 1), birth.clock);
      RunsOver(birth.date.year + 18);
      StampOrder(now, march);
    } else {
      StampOrder(now, Birthday(birth));
    }
  }

  /** Once over 18, always over 18. */
  lemma OnceOver18(birth: Stamp, now: Stamp, later: Stamp)
    requires ValidStamp(birth) && ValidStamp(now) && ValidStamp(later)
    ensures IsOver18(birth, now) && !Earlier(later, now) ==> IsOver18(birth, later)
  {
    StampOrder(later, now);
  }

  // ----- dates of birth as text -----

  predicate IsDigit(c: char) {
    '0' <= c <= '9'
  }

  function Digit(c: char): (d: int)
    requires IsDigit(c)
    ensures 0 <= d <= 9
  {
    c as int - '0' as int
  }

  function DigitChar(d: int): (c: char)
    requires 0 <= d <= 9
    ensures IsDigit(c) && Digit(c) == d
  {
    (d + '0' as int) as char
  }

  lemma DigitBack(c: char)
    requires IsDigit(c)
    ensures DigitChar(Digit(c)) == c
  {
  }

  predicate AllDigits(s: string) {
    forall i | 0 <= i < |s| :: IsDigit(s[i])
  }

  // The layout four digits, two digits, two digits, with hyphens between.
  predicate HasLayout(s: string) {
    && |s| == 10 && s[4] == '-' && s[7] == '-'
    && AllDigits(s[..4]) && AllDigits(s[5..7]) && AllDigits(s[8..])
  }

  function Number2(s: string): int
    requires |s| == 2 && AllDigits(s)
  {
    10 * Digit(s[0]) + Digit(s[1])
  }

  function Number4(s: string): int
    requires |s| == 4 && AllDigits(s)
  {
    100 * Number2(s[..2]) + Number2(s[2..])
  }

  // time.Parse with the layout 2006-01-02: month and day are checked against the calendar.
  function ParseDate(s: string): Option<Date> {
    if !HasLayout(s) then None
    else
      var d := Date(Number4(s[..4]), Number2(s[5..7]), Number2(s[8..]));
      if Valid(d) then Some(d) else None
  }

  function Text2(n: int): (s: string)
    requires 0 <= n <= 99
    ensures |s| == 2 && AllDigits(s) && Number2(s) == n
  {
    [DigitChar(n / 10), DigitChar(n % 10)]
  }

  function Text4(n: int): (s: string)
    requires 0 <= n <= 9999
    ensures |s| == 4 && AllDigits(s) && Number4(s) == n
  {
    var s := Text2(n / 100) + Text2(n % 100);
    assert s[..2] == Text2(n / 100) && s[2..] == Text2(n % 100);
    s
  }

  function FormatDate(d: Date): string
    requires Valid(d) && 0 <= d.year <= 9999
  {
    Text4(d.year) + "-" + Text2(d.month) + "-" + Text2(d.day)
  }

  lemma Text2Back(s: string)
    requires |s| == 2 && AllDigits(s)
    ensures 0 <= Number2(s) <= 99 && Text2(Number2(s)) == s
  {
    DigitBack(s[0]);
    DigitBack(s[1]);
  }

  lemma Hundreds(high: int, low: int)
    requires 0 <= high <= 99 && 0 <= low <= 99
    ensures (100 * high + low) / 100 == high && (100 * high + low) % 100 == low
  {
  }

  lemma Text4Back(s: string)
    requires |s| == 4 && AllDigits(s)
    ensures 0 <= Number4(s) <= 9999 && Text4(Number4(s)) == s
  {
    var high, low := Number2(s[..2]), Number2(s[2..]);
    Text2Back(s[..2]);
    Text2Back(s[2..]);
    Hundreds(high, low);
    assert s == s[..2] + s[2..];
  }

  /** Parsing gives back every date that was written, for the years the layout has room for. */
  lemma ParseFormat(d: Date)
    requires Valid(d) && 0 <= d.year <= 9999
    ensures ParseDate(FormatDate(d)) == Some(d)
  {
    var s := FormatDate(d);
    assert s[..4] == Text4(d.year) && s[5..7] == Text2(d.month) && s[8..] == Text2(d.day);
  }

  /** Only a written date is parsed: everything else is refused. */
  lemma FormatParse(s: string)
    requires ParseDate(s).Some?
    ensures var d := ParseDate(s).value; Valid(d) && 0 <= d.year <= 9999 && FormatDate(d) == s
  {
    Text4Back(s[..4]);
    Text2Back(s[5..7]);
    Text2Back(s[8..]);
    assert s == s[..4] + "-" + s[5..7] + "-" + s[8..];
  }

  predicate DeriveIsOver18(dob: string, now: Stamp)
    requires ValidStamp(now)
  {
    if dob == "" then false
    else
      match ParseDate(dob)
      case None => false
      case Some(d) => IsOver18(Stamp(d, 0), now)
  }

  // The text is this date, written out.
  predicate Writes(s: string, d: Date) {
    Valid(d) && 0 <= d.year <= 9999 && s == FormatDate(d)
  }

  lemma ParseIff(s: string, d: Date)
    ensures ParseDate(s) == Some(d) <==> Writes(s, d)
  {
    if Writes(s, d) {
      ParseFormat(d);
    }
    if ParseDate(s) == Some(d) {
      FormatParse(s);
    }
  }

  /** A citizen counts as over 18 exactly when the text is some date written out
      and today's date is not before that date eighteen years later. */
  lemma DeriveIsOver18Iff(dob: string, now: Stamp)
    requires ValidStamp(now)
    ensures DeriveIsOver18(dob, now) <==>
              exists d :: Writes(dob, d) && !Before(now.date, Date(d.year + 18, d.month, d.day))
  {
    forall d: Date ensures ParseDate(dob) == Some(d) <==> Writes(dob, d) {
      ParseIff(dob, d);
    }
    if ParseDate(dob).Some? {
      IsOver18Iff(Stamp(ParseDate(dob).value, 0), now);
    }
  }
}
