// Zero-padded "HH:mm" times of day. The planner compares them as strings;
// the lemmas here show that, for well-formed times, string order is
// minutes-of-day order and formatting is a bijection onto [0, 1440).

module Clock {
  import opened Text

  const MinutesPerDay := 1440

  /** A zero-padded 24-hour "HH:mm" string. */
  predicate WellFormedTime(s: string)
  {
    && |s| == 5
    && IsDigit(s[0]) && IsDigit(s[1]) && s[2] == ':' && IsDigit(s[3]) && IsDigit(s[4])
    && 10 * DigitValue(s[0]) + DigitValue(s[1]) <= 23
    && 10 * DigitValue(s[3]) + DigitValue(s[4]) <= 59
  }

  /** The minute of the day an "HH:mm" string names. */
  function MinuteOfDay(s: string): (m: nat)
    requires WellFormedTime(s)
    ensures m < MinutesPerDay
  {
    60 * (10 * DigitValue(s[0]) + DigitValue(s[1])) + 10 * DigitValue(s[3]) + DigitValue(s[4])
  }

  /** date-fns `format(d, 'HH:mm')` of the instant `m` minutes after midnight. */
  function FormatTime(m: nat): (s: string)
    requires m < MinutesPerDay
    ensures WellFormedTime(s) && MinuteOfDay(s) == m
  {
    var h, mm := m / 60, m % 60;
    [DigitChar(h / 10), DigitChar(h % 10), ':', DigitChar(mm / 10), DigitChar(mm % 10)]
  }

  /** Formatting the minute a well-formed time names gives that time back. */
  lemma FormatMinuteOfDay(s: string)
    requires WellFormedTime(s)
    ensures FormatTime(MinuteOfDay(s)) == s
  {
    var h := 10 * DigitValue(s[0]) + DigitValue(s[1]);
    var mm := 10 * DigitValue(s[3]) + DigitValue(s[4]);
    SplitSixty(h, mm);
    SplitTen(DigitValue(s[0]), DigitValue(s[1]));
    SplitTen(DigitValue(s[3]), DigitValue(s[4]));
    DigitCharOfValue(s[0]);
    DigitCharOfValue(s[1]);
    DigitCharOfValue(s[3]);
    DigitCharOfValue(s[4]);
  }

  /** Hours and minutes are recovered from the minute count. */
  lemma SplitSixty(h: nat, mm: nat)
    requires mm < 60
    ensures (60 * h + mm) / 60 == h && (60 * h + mm) % 60 == mm
  {
  }

  /** Tens and units are recovered from a two-digit number. */
  lemma SplitTen(a: nat, b: nat)
    requires b < 10
    ensures (10 * a + b) / 10 == a && (10 * a + b) % 10 == b
  {
  }

  /** Two well-formed times are equal exactly when they name the same minute. */
  lemma TimeEquality(a: string, b: string)
    requires WellFormedTime(a) && WellFormedTime(b)
    ensures a == b <==> MinuteOfDay(a) == MinuteOfDay(b)
  {
    if MinuteOfDay(a) == MinuteOfDay(b) {
      FormatMinuteOfDay(a);
      FormatMinuteOfDay(b);
    }
  }

  /** One step of the lexicographic comparison. */
  lemma LexStep(a: string, b: string)
    requires |a| == |b| > 0
    ensures LexLess(a, b) <==> a[0] < b[0] || (a[0] == b[0] && LexLess(a[1..], b[1..]))
  {
  }

  /** For well-formed times, JavaScript's string `<` is minute order. */
  lemma TimeOrder(a: string, b: string)
    requires WellFormedTime(a) && WellFormedTime(b)
    ensures LexLess(a, b) <==> MinuteOfDay(a) < MinuteOfDay(b)
  {
    LexStep(a, b);
    LexStep(a[1..], b[1..]);
    LexStep(a[2..], b[2..]);
    LexStep(a[3..], b[3..]);
    LexStep(a[4..], b[4..]);
    assert a[1..][1..] == a[2..] && b[1..][1..] == b[2..];
    assert a[2..][1..] == a[3..] && b[2..][1..] == b[3..];
    assert a[3..][1..] == a[4..] && b[3..][1..] == b[4..];
    assert a[4..][1..] == [] && b[4..][1..] == [];
    DigitOrder(a[0], b[0]);
    DigitOrder(a[1], b[1]);
    DigitOrder(a[3], b[3]);
    DigitOrder(a[4], b[4]);
  }

  /** For well-formed times, JavaScript's string `<=` is minute order. */
  lemma TimeOrderEq(a: string, b: string)
    requires WellFormedTime(a) && WellFormedTime(b)
    ensures LexLessEq(a, b) <==> MinuteOfDay(a) <= MinuteOfDay(b)
  {
    TimeOrder(a, b);
    TimeEquality(a, b);
  }
}
