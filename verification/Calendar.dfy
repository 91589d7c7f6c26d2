/** The dates that daily usage accepts are the days of the Gregorian calendar, counted without a gap.

    A day has a number, computed by division alone: how many days there are up to it since the first
    of January of the year 1. The month lengths and the leap rule of the code are measured against it.
 */
module Calendar {
  import opened Common
  import opened Strings
  import opened Json
  import opened AppServerState
  import opened DailyUsage

  /** The leap days in the years up to this one. */
  function LeapDays(year: nat): nat { year / 4 - year / 100 + year / 400 }

  /** The days before the year. */
  function DaysBefore(year: nat): nat
    requires year > 0
  {
    365 * (year - 1) + LeapDays(year - 1)
  }

  /** The days before a month, as if February had 30. */
  function MonthStart(month: nat): int { (367 * month - 362) / 12 }

  /** From March on the days that February lacks are taken back. */
  function DayNumber(d: Date): int
    requires d.year > 0
  {
    DaysBefore(d.year) + MonthStart(d.month) + d.day
    + if d.month <= 2 then 0 else LeapDays(d.year) - LeapDays(d.year - 1) - 2
  }

  lemma FoursGrow(n: nat)
    ensures (n + 1) / 4 == n / 4 + if (n + 1) % 4 == 0 then 1 else 0
  {}

  lemma HundredsGrow(n: nat)
    ensures (n + 1) / 100 == n / 100 + if (n + 1) % 100 == 0 then 1 else 0
  {}

  lemma FourHundredsGrow(n: nat)
    ensures (n + 1) / 400 == n / 400 + if (n + 1) % 400 == 0 then 1 else 0
  {}

  lemma FourHundredsAreHundreds(n: nat)
    ensures (400 * n) % 100 == 0
  {
    assert (100 * (4 * n)) % 100 == 0;
  }

  lemma HundredsAreFours(n: nat)
    ensures (100 * n) % 4 == 0
  {
    assert (4 * (25 * n)) % 4 == 0;
  }

  /** The leap rule of the code is what the divisions say. */
  lemma LeapYearsAreLonger(year: nat)
    requires year > 0
    ensures LeapDays(year) - LeapDays(year - 1) == if IsLeap(year) then 1 else 0
  {
    FoursGrow(year - 1);
    HundredsGrow(year - 1);
    FourHundredsGrow(year - 1);
    FourHundredsAreHundreds(year / 400);
    HundredsAreFours(year / 100);
  }

  lemma MonthLengths(month: nat)
    requires 1 <= month <= 12
    ensures MonthStart(1) == 0 && MonthStart(13) == 367
    ensures MonthStart(month + 1) - MonthStart(month)
      == if month in {4, 6, 9, 11} then 30 else if month == 2 then 30 else 31
    ensures month <= 2 <==> MonthStart(month) < 61
  {
    assert month == 1 || month == 2 || month == 3 || month == 4 || month == 5 || month == 6
      || month == 7 || month == 8 || month == 9 || month == 10 || month == 11 || month == 12;
  }

  function Tomorrow(d: Date): (t: Date)
    requires IsCalendarDate(d)
    ensures IsCalendarDate(t)
  {
    if d.day < DaysIn(d.year, d.month) then d.(day := d.day + 1)
    else if d.month < 12 then Date(d.year, d.month + 1, 1)
    else Date(d.year + 1, 1, 1)
  }

  /** No day is missing and none is there twice, at the end of a month, of February and of a year. */
  lemma TomorrowIsNext(d: Date)
    requires IsCalendarDate(d)
    ensures DayNumber(Tomorrow(d)) == DayNumber(d) + 1
  {
    var t := Tomorrow(d);
    LeapYearsAreLonger(d.year);
    MonthLengths(d.month);
    if t.day > 1 { assert t.month == d.month; }
    else if t.month > 1 { assert t.year == d.year && t.month == d.month + 1; }
    else { assert MonthStart(12) == 336 && LeapDays(t.year - 1) == LeapDays(d.year); }
  }

  lemma WithinYear(d: Date)
    requires IsCalendarDate(d)
    ensures DaysBefore(d.year) < DayNumber(d) <= DaysBefore(d.year + 1)
  {
    LeapYearsAreLonger(d.year);
  }

  lemma YearsGrow(year: nat, later: nat)
    requires 0 < year <= later
    ensures DaysBefore(year) <= DaysBefore(later)
  {}

  lemma WithinMonth(a: Date, b: Date)
    requires IsCalendarDate(a) && IsCalendarDate(b) && a.year == b.year && a.month < b.month
    ensures DayNumber(a) < DayNumber(b)
  {
    LeapYearsAreLonger(a.year);
    MonthLengths(a.month);
    MonthsGrow(a.month + 1, b.month);
  }

  lemma MonthsGrow(month: nat, later: nat)
    requires 1 <= month <= later
    ensures MonthStart(month) <= MonthStart(later)
  {}

  /** The order by year, month and day is the order of the day numbers. */
  lemma EarlierIsSmaller(a: Date, b: Date)
    requires IsCalendarDate(a) && IsCalendarDate(b)
    ensures Earlier(a, b) <==> DayNumber(a) < DayNumber(b)
    ensures a == b <==> DayNumber(a) == DayNumber(b)
  {
    WithinYear(a);
    WithinYear(b);
    if a.year < b.year { YearsGrow(a.year + 1, b.year); }
    else if b.year < a.year { YearsGrow(b.year + 1, a.year); }
    else if a.month < b.month { WithinMonth(a, b); }
    else if b.month < a.month { WithinMonth(b, a); }
  }

  /** Every day from the first on is exactly one accepted date. */
  lemma {:induction false} EveryDayIsADate(n: nat) returns (d: Date)
    requires n > 0
    ensures IsCalendarDate(d) && DayNumber(d) == n
    ensures forall e :: IsCalendarDate(e) && DayNumber(e) == n ==> e == d
  {
    if n == 1 {
      d := Date(1, 1, 1);
    } else {
      var before := EveryDayIsADate(n - 1);
      d := Tomorrow(before);
      TomorrowIsNext(before);
    }
    forall e | IsCalendarDate(e) && DayNumber(e) == n ensures e == d { EarlierIsSmaller(e, d); }
  }

  /** So the days that are returned are in order of time: of two accepted texts the lesser is the earlier day. */
  lemma TextOrderIsTime(a: string, b: string)
    requires IsValidIsoDate(a) && IsValidIsoDate(b)
    ensures Below(a, b) <==> DayNumber(DateOf(a)) < DayNumber(DateOf(b))
  {
    TextOrderIsDateOrder(a, b);
    EarlierIsSmaller(DateOf(a), DateOf(b));
  }

  // ---------------------------------------------------------------- numbers in text

  /** A number as it is usually written. */
  function Decimal(n: nat): string {
    if n < 10 then [DigitOf(n)] else Decimal(n / 10) + [DigitOf(n % 10)]
  }

  function DigitOf(n: nat): char
    requires n < 10
  {
    ['0', '1', '2', '3', '4', '5', '6', '7', '8', '9'][n]
  }

  lemma {:induction false} NumberOfDecimal(n: nat)
    ensures AllDigits(Decimal(n)) && Number(Decimal(n)) == n && Decimal(n) != []
  {
    var written := Decimal(n);
    if n < 10 {
      assert written[..0] == [] && Number(written[..0]) == 0;
    } else {
      NumberOfDecimal(n / 10);
      assert written[..|written| - 1] == Decimal(n / 10);
    }
  }

  /** A count in text is read back up to the 64-bit limit, with or without a sign, and not beyond it. */
  lemma WrittenCountIsRead(n: nat)
    ensures ParseU64(Decimal(n)) == if n <= U64_MAX then Some(n) else None
    ensures ParseU64("+" + Decimal(n)) == if n <= U64_MAX then Some(n) else None
  {
    NumberOfDecimal(n);
    assert ("+" + Decimal(n))[1..] == Decimal(n) && IsDigit(Decimal(n)[0]);
  }

  // ---------------------------------------------------------------- where a bucket is read

  /** The names under which each part of a bucket may be sent, the preferred one first. */
  const DATE_NAMES: seq<string> := ["startDate", "start_date", "date"]

  const COUNT_NAMES: seq<string> := ["tokens", "tokenCount", "token_count"]

  /** A date is sent as text; a count as a number or as text that writes one. */
  predicate IsUsable(v: Value, asText: bool) { if asText then v.Text? else NumberU64(v).Some? }

  /** Under this name, and under none before it, something usable is sent. */
  predicate IsFirstUsable(members: Members, names: seq<string>, asText: bool, i: nat) {
    && i < |names| && names[i] in members && IsUsable(members[names[i]], asText)
    && forall k :: 0 <= k < i && names[k] in members ==> !IsUsable(members[names[k]], asText)
  }

  ghost predicate IsDateSent(members: Members, date: string) {
    exists i: nat :: IsFirstUsable(members, DATE_NAMES, true, i)
      && var text := members[DATE_NAMES[i]].text; !IsBlank(text) && Trim(text) == date
  }

  ghost predicate AreTokensSent(members: Members, tokens: u64) {
    exists i: nat :: IsFirstUsable(members, COUNT_NAMES, false, i)
      && NumberU64(members[COUNT_NAMES[i]]) == Some(tokens)
  }

  lemma UsableShifts(members: Members, names: seq<string>, asText: bool, i: nat)
    requires names != [] && !(names[0] in members && IsUsable(members[names[0]], asText))
    requires IsFirstUsable(members, names[1..], asText, i)
    ensures IsFirstUsable(members, names, asText, i + 1)
  {
    forall k | 0 <= k < i + 1 && names[k] in members ensures !IsUsable(members[names[k]], asText) {
      if k > 0 { assert names[1..][k - 1] == names[k]; }
    }
  }

  /** The place of the first usable value, or the number of names when there is none. */
  lemma {:induction false} FirstUsable(members: Members, names: seq<string>, asText: bool) returns (i: nat)
    ensures i <= |names| && (i < |names| ==> IsFirstUsable(members, names, asText, i))
    ensures forall k :: 0 <= k < i && names[k] in members ==> !IsUsable(members[names[k]], asText)
    ensures asText ==> (
      TextField(members, names)
        == if i < |names| && !IsBlank(members[names[i]].text) then Some(members[names[i]].text) else None)
    ensures !asText ==> (
      NumericField(members, names) == if i < |names| then NumberU64(members[names[i]]) else None)
  {
    if names == [] || (names[0] in members && IsUsable(members[names[0]], asText)) {
      i := 0;
    } else {
      var j := FirstUsable(members, names[1..], asText);
      if j < |names[1..]| { UsableShifts(members, names, asText, j); }
      assert forall k :: 0 < k < |names| ==> names[1..][k - 1] == names[k];
      i := j + 1;
    }
  }

  /** A bucket is read exactly from an object that sends an accepted date and a count, each under the first
      usable of its names. */
  lemma BucketIsRead(v: Value, b: Bucket)
    ensures BucketOf(v) == Some(b)
      <==> v.Object? && IsDateSent(v.members, b.date) && IsValidIsoDate(b.date) && AreTokensSent(v.members, b.tokens)
  {
    if v.Object? {
      var i := FirstUsable(v.members, DATE_NAMES, true);
      var j := FirstUsable(v.members, COUNT_NAMES, false);
    }
  }
}
