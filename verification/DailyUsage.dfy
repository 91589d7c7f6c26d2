/** The account's daily usage: valid dates only, one value each, the latest ninety in order.

    The map is ordered by the text of the dates; that this is calendar order is proved.
 */
module DailyUsage {
  import opened Common
  import opened Strings
  import opened Json
  import opened AppServerState

  const MAX_BUCKETS: nat := 90

  // ---------------------------------------------------------------- dates

  predicate IsDigit(c: char) { '0' <= c <= '9' }

  predicate AllDigits(s: string) { forall i :: 0 <= i < |s| ==> IsDigit(s[i]) }

  function Digit(c: char): nat
    requires IsDigit(c)
  {
    (c - '0') as int
  }

  function Number(s: string): nat
    requires AllDigits(s)
  {
    if s == [] then 0 else Number(s[..|s| - 1]) * 10 + Digit(s[|s| - 1])
  }

  predicate HasDateShape(s: string) {
    && |s| == 10 && s[4] == '-' && s[7] == '-'
    && AllDigits(s[..4]) && AllDigits(s[5..7]) && AllDigits(s[8..])
  }

  datatype Date = Date(year: nat, month: nat, day: nat)

  function DateOf(s: string): Date
    requires HasDateShape(s)
  {
    Date(Number(s[..4]), Number(s[5..7]), Number(s[8..]))
  }

  predicate IsLeap(year: nat) { year % 400 == 0 || (year % 4 == 0 && year % 100 != 0) }

  function DaysIn(year: nat, month: nat): nat {
    if month == 2 then (if IsLeap(year) then 29 else 28)
    else if month == 4 || month == 6 || month == 9 || month == 11 then 30
    else 31
  }

  predicate IsCalendarDate(d: Date) { d.year != 0 && 1 <= d.month <= 12 && 1 <= d.day <= DaysIn(d.year, d.month) }

  predicate IsValidIsoDate(s: string) { HasDateShape(s) && IsCalendarDate(DateOf(s)) }

  predicate Earlier(a: Date, b: Date) {
    a.year < b.year || (a.year == b.year && (a.month < b.month || (a.month == b.month && a.day < b.day)))
  }

  // ---------------------------------------------------------------- text order is date order

  lemma {:induction false} BelowByParts(a: string, b: string, x: string, y: string)
    requires |a| == |b|
    ensures Below(a + x, b + y) <==> Below(a, b) || (a == b && Below(x, y))
  {
    if a == [] {
      assert a + x == x && b + y == y;
    } else {
      BelowByParts(a[1..], b[1..], x, y);
      assert (a + x)[1..] == a[1..] + x && (b + y)[1..] == b[1..] + y;
      assert a == b <==> a[0] == b[0] && a[1..] == b[1..];
    }
  }

  lemma BelowOfOne(a: string, b: string)
    requires |a| == 1 && |b| == 1
    ensures Below(a, b) <==> a[0] < b[0]
  {
    assert a[1..] == [] && b[1..] == [];
  }

  /** Digit strings of one length are ordered as the numbers they write. */
  lemma {:induction false} BelowIsLess(a: string, b: string)
    requires |a| == |b| && AllDigits(a) && AllDigits(b)
    ensures Below(a, b) <==> Number(a) < Number(b)
    ensures a == b <==> Number(a) == Number(b)
  {
    if a != [] {
      var n := |a| - 1;
      BelowIsLess(a[..n], b[..n]);
      BelowByParts(a[..n], b[..n], [a[n]], [b[n]]);
      BelowOfOne([a[n]], [b[n]]);
      assert a == a[..n] + [a[n]] && b == b[..n] + [b[n]];
    }
  }

  lemma DateParts(s: string)
    requires HasDateShape(s)
    ensures s == s[..4] + ("-" + (s[5..7] + ("-" + s[8..])))
  {}

  /** The text order of accepted dates is the order of year, month and day. */
  lemma TextOrderIsDateOrder(a: string, b: string)
    requires HasDateShape(a) && HasDateShape(b)
    ensures Below(a, b) <==> Earlier(DateOf(a), DateOf(b))
    ensures a == b <==> DateOf(a) == DateOf(b)
  {
    DateParts(a);
    DateParts(b);
    BelowIsLess(a[..4], b[..4]);
    BelowIsLess(a[5..7], b[5..7]);
    BelowIsLess(a[8..], b[8..]);
    BelowIsIrreflexive("-");
    BelowByParts(a[..4], b[..4], "-" + (a[5..7] + ("-" + a[8..])), "-" + (b[5..7] + ("-" + b[8..])));
    BelowByParts("-", "-", a[5..7] + ("-" + a[8..]), b[5..7] + ("-" + b[8..]));
    BelowByParts(a[5..7], b[5..7], "-" + a[8..], "-" + b[8..]);
    BelowByParts("-", "-", a[8..], b[8..]);
  }

  // ---------------------------------------------------------------- buckets

  /** A decimal number in text, with an optional plus sign. */
  function ParseU64(s: string): Option<u64> {
    var digits := if s != [] && s[0] == '+' then s[1..] else s;
    if digits != [] && AllDigits(digits) && Number(digits) <= U64_MAX then Some(Number(digits)) else None
  }

  function NumberU64(v: Value): Option<u64> {
    if AsU64(v).Some? then AsU64(v) else if v.Text? then ParseU64(v.text) else None
  }

  /** The first of the keys that holds a number. */
  function NumericField(entries: Members, keys: seq<string>): Option<u64> {
    if keys == [] then None
    else if keys[0] in entries && NumberU64(entries[keys[0]]).Some? then NumberU64(entries[keys[0]])
    else NumericField(entries, keys[1..])
  }

  datatype Bucket = Bucket(date: string, tokens: u64)

  /** A bucket that can be read; anything else is passed over. */
  function BucketOf(v: Value): Option<Bucket> {
    if !v.Object? then None
    else
      var text := TextField(v.members, ["startDate", "start_date", "date"]);
      var tokens := NumericField(v.members, ["tokens", "tokenCount", "token_count"]);
      if text.Some? && IsValidIsoDate(Trim(text.value)) && tokens.Some? then
        Some(Bucket(Trim(text.value), tokens.value))
      else
        None
  }

  /** The value of the last readable bucket of a date. */
  function LastValid(items: seq<Value>, date: string): Option<u64> {
    if items == [] then None
    else
      var last := BucketOf(items[|items| - 1]);
      if last.Some? && last.value.date == date then Some(last.value.tokens) else LastValid(items[..|items| - 1], date)
  }

  ghost predicate IsLatestDate(keys: set<string>, last: string) {
    last in keys && forall k :: k in keys ==> !Below(last, k)
  }

  lemma {:induction false} HasLatestDate(keys: set<string>)
    requires keys != {}
    ensures exists last :: IsLatestDate(keys, last)
    decreases |keys|
  {
    var k :| k in keys;
    BelowIsIrreflexive(k);
    assert forall j :: j in keys ==> j == k || j in keys - {k};
    if keys - {k} == {} {
      assert IsLatestDate(keys, k);
    } else {
      HasLatestDate(keys - {k});
      var last :| IsLatestDate(keys - {k}, last);
      if Below(last, k) {
        forall j | j in keys - {k} ensures !Below(k, j) { if Below(k, j) { BelowIsTransitive(last, k, j); } }
        assert IsLatestDate(keys, k);
      } else {
        assert IsLatestDate(keys, last);
      }
    }
  }

  function Dates(buckets: seq<Bucket>): set<string> { set b | b in buckets :: b.date }

  ghost predicate IsAscending(buckets: seq<Bucket>) {
    forall i, j :: 0 <= i < j < |buckets| ==> Below(buckets[i].date, buckets[j].date)
  }

  /** The buckets are the later part of all dates, the rest the earlier. */
  ghost predicate Splits(buckets: seq<Bucket>, rest: set<string>, all: set<string>) {
    && IsAscending(buckets) && rest <= all && Dates(buckets) == all - rest
    && forall b, k :: b in buckets && k in rest ==> Below(k, b.date)
  }

  lemma SplitsNext(buckets: seq<Bucket>, rest: set<string>, all: set<string>, b: Bucket)
    requires Splits(buckets, rest, all) && IsLatestDate(rest, b.date)
    ensures Splits([b] + buckets, rest - {b.date}, all)
  {
    assert forall c :: c in [b] + buckets <==> c == b || c in buckets;
    assert Dates([b] + buckets) == Dates(buckets) + {b.date};
    forall k | k in rest - {b.date} ensures Below(k, b.date) { BelowIsTotal(k, b.date); }
    assert forall j :: 1 <= j < |buckets| + 1 ==> ([b] + buckets)[j] == buckets[j - 1] && buckets[j - 1] in buckets;
  }

  /** Both are accepted dates, and `a` is the earlier day. */
  predicate IsEarlierDate(a: string, b: string) {
    IsValidIsoDate(a) && IsValidIsoDate(b) && Earlier(DateOf(a), DateOf(b))
  }

  /** Each day at most once, in calendar order, with the last readable value of its date. */
  ghost predicate AreDays(items: seq<Value>, days: seq<Bucket>) {
    && (forall b :: b in days ==> LastValid(items, b.date) == Some(b.tokens))
    && (forall i, j :: 0 <= i < j < |days| ==> IsEarlierDate(days[i].date, days[j].date))
  }

  /** Collects the buckets by date, then keeps the latest ones in order. A readable date is left out
      only when ninety later ones are returned. */
  method ParseDailyUsageBuckets(items: seq<Value>) returns (days: seq<Bucket>)
    ensures AreDays(items, days) && |days| <= MAX_BUCKETS
    ensures forall date :: LastValid(items, date).Some? && date !in Dates(days) ==>
      |days| == MAX_BUCKETS && forall b :: b in days ==> IsEarlierDate(date, b.date)
  {
    var parsed: map<string, u64> := map[];
    for i := 0 to |items|
      invariant forall date :: LastValid(items[..i], date) == if date in parsed then Some(parsed[date]) else None
    {
      assert items[..i + 1][..i] == items[..i];
      var bucket := BucketOf(items[i]);
      if bucket.Some? { parsed := parsed[bucket.value.date := bucket.value.tokens]; }
    }
    assert items[..|items|] == items;
    days := Latest(parsed);
    forall a, b | LastValid(items, a).Some? && LastValid(items, b).Some? && Below(a, b) ensures IsEarlierDate(a, b) {
      TextBeforeIsEarlier(items, a, b);
    }
    assert forall i :: 0 <= i < |days| ==> days[i] in days;
  }

  lemma TextBeforeIsEarlier(items: seq<Value>, a: string, b: string)
    requires LastValid(items, a).Some? && LastValid(items, b).Some? && Below(a, b)
    ensures IsEarlierDate(a, b)
  {
    ValidDatesOnly(items, a);
    ValidDatesOnly(items, b);
    TextOrderIsDateOrder(a, b);
  }

  method Latest(parsed: map<string, u64>) returns (days: seq<Bucket>)
    ensures IsAscending(days) && |days| <= MAX_BUCKETS
    ensures forall b :: b in days ==> b.date in parsed && parsed[b.date] == b.tokens
    ensures forall date :: date in parsed && date !in Dates(days) ==>
      |days| == MAX_BUCKETS && forall b :: b in days ==> Below(date, b.date)
  {
    days := [];
    var rest := parsed.Keys;
    assert Dates(days) == parsed.Keys - rest;
    while |days| < MAX_BUCKETS && rest != {}
      invariant |days| <= MAX_BUCKETS && Splits(days, rest, parsed.Keys)
      invariant forall b :: b in days ==> b.date in parsed && parsed[b.date] == b.tokens
      decreases |rest|
    {
      HasLatestDate(rest);
      var last :| last in rest && forall k :: k in rest ==> !Below(last, k);
      SplitsNext(days, rest, parsed.Keys, Bucket(last, parsed[last]));
      days := [Bucket(last, parsed[last])] + days;
      rest := rest - {last};
    }
  }

  lemma {:induction false} ValidDatesOnly(items: seq<Value>, date: string)
    requires LastValid(items, date).Some?
    ensures IsValidIsoDate(date)
  {
    var last := BucketOf(items[|items| - 1]);
    if !(last.Some? && last.value.date == date) { ValidDatesOnly(items[..|items| - 1], date); }
  }
}
