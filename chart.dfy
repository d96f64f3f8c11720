/**
  The chart helpers of the transaction service: enumerating the buckets of a
  reporting period, filling each bucket with the sum of the first matching
  data group, and reducing every bucket key to the integer after its last '-'.
*/
module Chart {
  import opened Wrappers
  import opened Calendar

  /** A chart point: the bucket key and its value. */
  datatype Bucket = Bucket(x: string, y: real)

  /** A row of the grouped query: the bucket key it belongs to and its sum. */
  datatype Group = Group(dateGroup: string, sum: real)

  /** The period_type values; OtherUnit stands for any value none of the five cases matches. */
  datatype ChartUnit = DayUnit | WeekUnit | MonthUnit | QuarterUnit | YearUnit | OtherUnit

  /** The chart request: period_from, period_to and period_type, each possibly absent. */
  datatype ChartRequest = ChartRequest(periodFrom: Option<Date>, periodTo: Option<Date>, periodType: Option<ChartUnit>)

  /** The start of a bucket's successor: addDay, addWeek, addMonth, addQuarter, addYear. */
  function ChartStep(d: Date, unit: ChartUnit): (r: Date)
    requires unit != OtherUnit
    ensures DayNumber(r) > DayNumber(d)
  {
    match unit
    case DayUnit => AddDaysNumber(d, 1); AddDays(d, 1)
    case WeekUnit => AddDaysNumber(d, 7); AddDays(d, 7)
    case MonthUnit => AddMonthsIncreases(d, 1); AddMonths(d, 1)
    case QuarterUnit => AddMonthsIncreases(d, 3); AddMonths(d, 3)
    case YearUnit => AddMonthsIncreases(d, 12); AddMonths(d, 12)
  }

  /** The bucket start dates from d on, one step apart, while not after `end`. */
  function BucketDates(d: Date, end: Date, unit: ChartUnit): seq<Date>
    requires unit != OtherUnit
    decreases if DayNumber(d) <= DayNumber(end) then DayNumber(end) - DayNumber(d) + 1 else 0
  {
    if DayNumber(d) > DayNumber(end) then [] else [d] + BucketDates(ChartStep(d, unit), end, unit)
  }

  /** The buckets are empty exactly when d is after `end`; otherwise they start at d, and one step past the last is after `end`. */
  lemma {:induction false} BucketDatesEnds(d: Date, end: Date, unit: ChartUnit)
    requires unit != OtherUnit
    ensures var s := BucketDates(d, end, unit);
            && (s == [] <==> DayNumber(d) > DayNumber(end))
            && (s != [] ==> s[0] == d && DayNumber(ChartStep(s[|s| - 1], unit)) > DayNumber(end))
    decreases if DayNumber(d) <= DayNumber(end) then DayNumber(end) - DayNumber(d) + 1 else 0
  {
    if DayNumber(d) <= DayNumber(end) {
      var next := ChartStep(d, unit);
      BucketDatesEnds(next, end, unit);
      var s, rest := BucketDates(d, end, unit), BucketDates(next, end, unit);
      assert s == [d] + rest;
      if rest != [] {
        assert s[|s| - 1] == rest[|rest| - 1];
      }
    }
  }

  /** Every date has a day number in [lo, hi]. */
  predicate InPeriod(s: seq<Date>, lo: int, hi: int) {
    forall i :: 0 <= i < |s| ==> lo <= DayNumber(s[i]) <= hi
  }

  /** Each date but the first is one chart step after the previous one. */
  predicate ChartStepped(s: seq<Date>, unit: ChartUnit)
    requires unit != OtherUnit
  {
    forall i :: 0 <= i < |s| - 1 ==> s[i + 1] == ChartStep(s[i], unit)
  }

  /** No bucket starts before d or after `end`. */
  lemma {:induction false} BucketDatesInPeriod(d: Date, end: Date, unit: ChartUnit)
    requires unit != OtherUnit
    ensures InPeriod(BucketDates(d, end, unit), DayNumber(d), DayNumber(end))
    decreases if DayNumber(d) <= DayNumber(end) then DayNumber(end) - DayNumber(d) + 1 else 0
  {
    if DayNumber(d) <= DayNumber(end) {
      var next := ChartStep(d, unit);
      BucketDatesInPeriod(next, end, unit);
      var s, rest := BucketDates(d, end, unit), BucketDates(next, end, unit);
      assert s == [d] + rest;
      forall i | 1 <= i < |s| ensures DayNumber(d) <= DayNumber(s[i]) <= DayNumber(end) {
        assert s[i] == rest[i - 1];
      }
    }
  }

  /** Each bucket but the first starts one step after the previous one. */
  lemma {:induction false} BucketDatesSteps(d: Date, end: Date, unit: ChartUnit)
    requires unit != OtherUnit
    ensures ChartStepped(BucketDates(d, end, unit), unit)
    decreases if DayNumber(d) <= DayNumber(end) then DayNumber(end) - DayNumber(d) + 1 else 0
  {
    if DayNumber(d) <= DayNumber(end) {
      var next := ChartStep(d, unit);
      BucketDatesSteps(next, end, unit);
      BucketDatesEnds(next, end, unit);
      var s, rest := BucketDates(d, end, unit), BucketDates(next, end, unit);
      assert s == [d] + rest;
      forall i | 0 <= i < |s| - 1 ensures s[i + 1] == ChartStep(s[i], unit) {
        if i > 0 {
          assert s[i] == rest[i - 1] && s[i + 1] == rest[i];
        }
      }
    }
  }

  /** The bucket dates strictly increase. */
  lemma {:induction false} BucketDatesIncreasing(d: Date, end: Date, unit: ChartUnit)
    requires unit != OtherUnit
    ensures Increasing(BucketDates(d, end, unit))
    decreases if DayNumber(d) <= DayNumber(end) then DayNumber(end) - DayNumber(d) + 1 else 0
  {
    if DayNumber(d) <= DayNumber(end) {
      var next := ChartStep(d, unit);
      BucketDatesIncreasing(next, end, unit);
      BucketDatesInPeriod(next, end, unit);
      var s, rest := BucketDates(d, end, unit), BucketDates(next, end, unit);
      assert s == [d] + rest;
      forall i, j | 0 <= i < j < |s| ensures DayNumber(s[i]) < DayNumber(s[j]) {
        assert s[j] == rest[j - 1];
        if i > 0 {
          assert s[i] == rest[i - 1];
        }
      }
    }
  }

  /** The quarter of the year a date falls in, 1 to 4. */
  function Quarter(d: Date): (q: int)
    ensures 1 <= q <= 4
  {
    (d.month - 1) / 3 + 1
  }

  function DigitChar(n: int): (c: char)
    requires 0 <= n < 10
    ensures '0' <= c <= '9' && c as int - '0' as int == n
  {
    ('0' as int + n) as char
  }

  function DigitValue(c: char): (n: int)
    requires '0' <= c <= '9'
    ensures 0 <= n < 10 && DigitChar(n) == c
  {
    c as int - '0' as int
  }

  predicate IsDigit(c: char) {
    '0' <= c <= '9'
  }

  /** The decimal numeral of n, without sign or leading zeros. */
  function NatToString(n: nat): (s: string)
    ensures |s| >= 1 && forall i :: 0 <= i < |s| ==> IsDigit(s[i])
  {
    if n < 10 then [DigitChar(n)] else NatToString(n / 10) + [DigitChar(n % 10)]
  }

  /** PHP's string form of an integer. */
  function IntToString(n: int): string {
    if n < 0 then "-" + NatToString(-n) else NatToString(n)
  }

  /** The bucket key: the date in the unit's format, with "-" and the quarter appended for quarters. */
  function BucketKey(keyOf: (ChartUnit, Date) -> string, unit: ChartUnit, d: Date): string {
    if unit == QuarterUnit then keyOf(unit, d) + "-" + NatToString(Quarter(d)) else keyOf(unit, d)
  }

  function EmptyBuckets(keyOf: (ChartUnit, Date) -> string, unit: ChartUnit, dates: seq<Date>): seq<Bucket> {
    seq(|dates|, i requires 0 <= i < |dates| => Bucket(BucketKey(keyOf, unit, dates[i]), 0.0))
  }

  /** The unit a request selects: period_type, by default a day. */
  function RequestUnit(req: ChartRequest): ChartUnit {
    if req.periodType.Some? then req.periodType.value else DayUnit
  }

  lemma EmptyBucketsCons(keyOf: (ChartUnit, Date) -> string, unit: ChartUnit, d: Date, rest: seq<Date>)
    ensures EmptyBuckets(keyOf, unit, [d] + rest) == [Bucket(BucketKey(keyOf, unit, d), 0.0)] + EmptyBuckets(keyOf, unit, rest)
  {
    var l, r := EmptyBuckets(keyOf, unit, [d] + rest), [Bucket(BucketKey(keyOf, unit, d), 0.0)] + EmptyBuckets(keyOf, unit, rest);
    assert |l| == |r|;
    forall i | 0 <= i < |l| ensures l[i] == r[i] {
      if i > 0 {
        assert ([d] + rest)[i] == rest[i - 1];
      }
    }
  }

  /** The bucket loop of buildDataStructure: one bucket with value 0 per step from start while not after end. */
  method EnumerateBuckets(start: Date, end: Date, unit: ChartUnit, keyOf: (ChartUnit, Date) -> string)
    returns (r: seq<Bucket>)
    requires unit != OtherUnit
    ensures r == EmptyBuckets(keyOf, unit, BucketDates(start, end, unit))
  {
    r := [];
    var date := start;
    while DayNumber(date) <= DayNumber(end)
      invariant r + EmptyBuckets(keyOf, unit, BucketDates(date, end, unit))
                == EmptyBuckets(keyOf, unit, BucketDates(start, end, unit))
      decreases DayNumber(end) - DayNumber(date)
    {
      var rest := BucketDates(ChartStep(date, unit), end, unit);
      assert BucketDates(date, end, unit) == [date] + rest;
      var elem := Bucket(BucketKey(keyOf, unit, date), 0.0);
      EmptyBucketsCons(keyOf, unit, date, rest);
      r := r + [elem];
      date := ChartStep(date, unit);
    }
    assert EmptyBuckets(keyOf, unit, BucketDates(date, end, unit)) == [];
    assert r + [] == r;
  }

  /** period_from, by default the first of the current month. */
  function PeriodStart(req: ChartRequest, now: Date): Date {
    if req.periodFrom.Some? then req.periodFrom.value else CivilDate(now.year, now.month, 1)
  }

  /** period_to, by default today. */
  function PeriodEnd(req: ChartRequest, now: Date): Date {
    if req.periodTo.Some? then req.periodTo.value else now
  }

  /** The start of the requested period is not after its end, so the bucket loop's body runs at least once. */
  predicate PeriodNonEmpty(req: ChartRequest, now: Date) {
    DayNumber(PeriodStart(req, now)) <= DayNumber(PeriodEnd(req, now))
  }

  /**
    buildDataStructure fails exactly when an unknown period_type meets a
    non-empty period: only the loop body uses the step method the switch
    leaves undefined.
  */
  predicate StructureFails(req: ChartRequest, now: Date) {
    RequestUnit(req) == OtherUnit && PeriodNonEmpty(req, now)
  }

  /** The dates of the requested period's buckets; none for an unknown period_type whose period is empty. */
  function RequestDates(req: ChartRequest, now: Date): seq<Date> {
    var unit := RequestUnit(req);
    if unit == OtherUnit then [] else BucketDates(PeriodStart(req, now), PeriodEnd(req, now), unit)
  }

  /**
    When buildDataStructure does not fail, its dates lie in the period and
    strictly increase, and there are none exactly when the period is empty.
  */
  lemma RequestDatesShape(req: ChartRequest, now: Date)
    requires !StructureFails(req, now)
    ensures var dates := RequestDates(req, now);
            && (dates == [] <==> !PeriodNonEmpty(req, now))
            && InPeriod(dates, DayNumber(PeriodStart(req, now)), DayNumber(PeriodEnd(req, now)))
            && Increasing(dates)
  {
    var unit := RequestUnit(req);
    if unit != OtherUnit {
      var start, end := PeriodStart(req, now), PeriodEnd(req, now);
      BucketDatesEnds(start, end, unit);
      BucketDatesInPeriod(start, end, unit);
      BucketDatesIncreasing(start, end, unit);
    }
  }

  /**
    buildDataStructure: the empty buckets of the requested period. `keyOf` is
    the unit's date format, which the model does not spell out.
  */
  method BuildDataStructure(req: ChartRequest, now: Date, keyOf: (ChartUnit, Date) -> string)
    returns (r: Option<seq<Bucket>>)
    ensures r.None? <==> StructureFails(req, now)
    ensures r.Some? ==> r.value == EmptyBuckets(keyOf, RequestUnit(req), RequestDates(req, now))
  {
    var unit := RequestUnit(req);
    var start, end := PeriodStart(req, now), PeriodEnd(req, now);
    if unit == OtherUnit {
      if DayNumber(start) <= DayNumber(end) {
        return None;
      }
      return Some([]);
    }
    var returnData := EnumerateBuckets(start, end, unit, keyOf);
    r := Some(returnData);
  }

  /** The sum of the first data group whose date_group is x, if any. */
  function FirstSum(data: seq<Group>, x: string): (r: Option<real>)
    ensures r.Some? <==> exists i :: 0 <= i < |data| && data[i].dateGroup == x
    ensures r.Some? ==> exists i :: 0 <= i < |data| && data[i].dateGroup == x && data[i].sum == r.value
                                    && forall j :: 0 <= j < i ==> data[j].dateGroup != x
  {
    if data == [] then None
    else if data[0].dateGroup == x then Some(data[0].sum)
    else
      var r := FirstSum(data[1..], x);
      assert forall i :: 1 <= i < |data| ==> data[i] == data[1..][i - 1];
      if r.Some? then
        var i :| 0 <= i < |data[1..]| && data[1..][i].dateGroup == x && data[1..][i].sum == r.value
                 && forall j :: 0 <= j < i ==> data[1..][j].dateGroup != x;
        assert data[i + 1] == data[1..][i];
        r
      else r
  }

  /** A bucket after the fill: the first matching group's sum, or the value it had. */
  function Filled(data: seq<Group>, b: Bucket): Bucket {
    match FirstSum(data, b.x)
    case Some(s) => b.(y := s)
    case None => b
  }

  /** The fill loop of buildReturnData: each bucket takes the sum of its first matching group. */
  method FillSums(buckets: seq<Bucket>, data: seq<Group>) returns (r: seq<Bucket>)
    ensures |r| == |buckets|
    ensures forall i :: 0 <= i < |r| ==> r[i] == Filled(data, buckets[i])
  {
    r := buckets;
    for i := 0 to |buckets|
      invariant |r| == |buckets|
      invariant forall j :: 0 <= j < i ==> r[j] == Filled(data, buckets[j])
      invariant forall j :: i <= j < |r| ==> r[j] == buckets[j]
    {
      var elem := FirstSum(data, r[i].x);
      if elem.Some? {
        r := r[i := r[i].(y := elem.value)];
      }
    }
  }

  /** The last index of `c` in s, if any: PHP strrpos. */
  function LastIndexOf(s: string, c: char): (r: Option<nat>)
    ensures r.Some? ==> r.value < |s| && s[r.value] == c && forall j :: r.value < j < |s| ==> s[j] != c
    ensures r.None? ==> forall j :: 0 <= j < |s| ==> s[j] != c
  {
    if s == [] then None
    else if s[|s| - 1] == c then Some(|s| - 1)
    else LastIndexOf(s[..|s| - 1], c)
  }

  predicate IsSpace(c: char) {
    c == ' ' || c == '\t' || c == '\n' || c == '\r' || c == '\U{0B}' || c == '\U{0C}'
  }

  /** The longest prefix of s made of digits. */
  function LeadingDigits(s: string): (r: string)
    ensures |r| <= |s| && r == s[..|r|]
    ensures forall i :: 0 <= i < |r| ==> IsDigit(r[i])
    ensures |r| < |s| ==> !IsDigit(s[|r|])
  {
    if s == [] || !IsDigit(s[0]) then [] else [s[0]] + LeadingDigits(s[1..])
  }

  /** The value of a string of decimal digits. */
  function NumeralValue(ds: string): (n: nat)
    requires forall i :: 0 <= i < |ds| ==> IsDigit(ds[i])
  {
    if ds == [] then 0
    else
      assert IsDigit(ds[|ds| - 1]);
      10 * NumeralValue(ds[..|ds| - 1]) + DigitValue(ds[|ds| - 1])
  }

  function SkipSpace(s: string): (r: string)
    ensures |r| <= |s| && r == s[|s| - |r|..]
    ensures r != [] ==> !IsSpace(r[0])
  {
    if s != [] && IsSpace(s[0]) then SkipSpace(s[1..]) else s
  }

  /**
    PHP intval of a string: leading whitespace is skipped, an optional sign
    is read, then as many decimal digits as follow; no digits give 0.
  */
  function IntVal(s: string): (r: int)
    ensures r < 0 ==> SkipSpace(s) != [] && SkipSpace(s)[0] == '-'
  {
    var t := SkipSpace(s);
    if t != [] && t[0] == '-' then 0 - NumeralValue(LeadingDigits(t[1..]))
    else if t != [] && t[0] == '+' then NumeralValue(LeadingDigits(t[1..]))
    else NumeralValue(LeadingDigits(t))
  }

  /**
    buildDataFormat's key rule: the text after the last '-' when there is one
    past the first character (a '-' at position 0 is falsy for the test),
    otherwise the whole key; then intval, written back as a string.
  */
  function FormatKey(x: string): (r: string)
    ensures r != [] && forall i :: 0 < i < |r| ==> r[i] != '-'
  {
    var pos := LastIndexOf(x, '-');
    var tail := if pos.Some? && pos.value != 0 then x[pos.value + 1..] else x;
    NoDashInIntToString(IntVal(tail));
    IntToString(IntVal(tail))
  }

  lemma {:induction false} NumeralOfNatToString(n: nat)
    ensures NumeralValue(NatToString(n)) == n
  {
    if n >= 10 {
      var q, r := n / 10, n % 10;
      NumeralOfNatToString(q);
      var s := NatToString(n);
      assert s == NatToString(q) + [DigitChar(r)];
      assert s[..|s| - 1] == NatToString(q);
      assert n == 10 * q + r;
    }
  }

  lemma {:induction false} LeadingDigitsOfNumeral(s: string)
    requires forall i :: 0 <= i < |s| ==> IsDigit(s[i])
    ensures LeadingDigits(s) == s
  {
    if s != [] {
      LeadingDigitsOfNumeral(s[1..]);
    }
  }

  /** intval reads a numeral back as its value. */
  lemma IntValOfNatToString(n: nat)
    ensures IntVal(NatToString(n)) == n
  {
    var digits := NatToString(n);
    NumeralOfNatToString(n);
    LeadingDigitsOfNumeral(digits);
    assert IsDigit(digits[0]);
    assert SkipSpace(digits) == digits;
  }

  /** intval reads a numeral behind a '-' back as its negation. */
  lemma IntValOfNegated(n: nat)
    ensures IntVal("-" + NatToString(n)) == 0 - n as int
  {
    var digits := NatToString(n);
    NumeralOfNatToString(n);
    LeadingDigitsOfNumeral(digits);
    var s := "-" + digits;
    assert SkipSpace(s) == s;
    assert s[1..] == digits;
  }

  /** intval reads back every integer PHP writes. */
  lemma IntValOfIntToString(n: int)
    ensures IntVal(IntToString(n)) == n
  {
    if n < 0 {
      IntValOfNegated(-n);
    } else {
      IntValOfNatToString(n);
    }
  }

  lemma NoDashInIntToString(n: int)
    ensures var s := IntToString(n);
            forall i :: 0 < i < |s| ==> s[i] != '-'
    ensures var s := IntToString(n); s[0] == '-' <==> n < 0
  {
    var s := IntToString(n);
    if n < 0 {
      forall i | 0 < i < |s| ensures s[i] != '-' {
        assert s[i] == NatToString(-n)[i - 1];
      }
    }
  }

  /** buildDataFormat is idempotent: a formatted key formats to itself. */
  lemma FormatKeyIdempotent(x: string)
    ensures FormatKey(FormatKey(x)) == FormatKey(x)
  {
    var v := IntVal(if LastIndexOf(x, '-').Some? && LastIndexOf(x, '-').value != 0 then x[LastIndexOf(x, '-').value + 1..] else x);
    var y := IntToString(v);
    NoDashInIntToString(v);
    IntValOfIntToString(v);
    var pos := LastIndexOf(y, '-');
    assert pos.None? || pos.value == 0;
  }

  /** A quarter key "<year>-<q>" formats to "<q>", and any key ending in "-<n>" after a non-empty prefix to "<n>". */
  lemma FormatKeyOfSuffix(prefix: string, n: nat)
    requires |prefix| >= 1
    ensures FormatKey(prefix + "-" + NatToString(n)) == NatToString(n)
  {
    var digits := NatToString(n);
    var x := prefix + "-" + digits;
    forall j | |prefix| < j < |x| ensures x[j] != '-' {
      assert x[j] == digits[j - |prefix| - 1];
    }
    assert x[|prefix|] == '-';
    var pos := LastIndexOf(x, '-');
    assert pos == Some(|prefix|);
    assert x[|prefix| + 1..] == digits;
    IntValOfIntToString(n);
  }

  /** The format loop of buildDataFormat: each key replaced by its formatted form, values untouched. */
  method BuildDataFormat(data: seq<Bucket>) returns (r: seq<Bucket>)
    ensures |r| == |data|
    ensures forall i :: 0 <= i < |r| ==> r[i] == data[i].(x := FormatKey(data[i].x))
  {
    r := data;
    for i := 0 to |data|
      invariant |r| == |data|
      invariant forall j :: 0 <= j < i ==> r[j] == data[j].(x := FormatKey(data[j].x))
      invariant forall j :: i <= j < |r| ==> r[j] == data[j]
    {
      var x := r[i].x;
      var pos := LastIndexOf(x, '-');
      if pos.Some? && pos.value != 0 {
        x := x[pos.value + 1..];
      }
      r := r[i := r[i].(x := IntToString(IntVal(x)))];
    }
  }

  /**
    One series as buildReturnData returns it: a bucket per date of the
    period, keyed by the formatted key and holding the sum of the first
    group with the unformatted key (0 without one).
  */
  predicate ReturnedSeries(b: seq<Bucket>, data: seq<Group>, req: ChartRequest, now: Date, keyOf: (ChartUnit, Date) -> string) {
    var dates, unit := RequestDates(req, now), RequestUnit(req);
    && |b| == |dates|
    && forall i :: 0 <= i < |dates| ==>
         var key := BucketKey(keyOf, unit, dates[i]);
         b[i] == Bucket(FormatKey(key), match FirstSum(data, key) case Some(s) => s case None => 0.0)
  }

  /** buildReturnData: the period's buckets filled from the data, their keys formatted. */
  method BuildReturnData(data: seq<Group>, req: ChartRequest, now: Date, keyOf: (ChartUnit, Date) -> string)
    returns (r: Option<seq<Bucket>>)
    ensures r.None? <==> StructureFails(req, now)
    ensures r.Some? ==> ReturnedSeries(r.value, data, req, now, keyOf)
  {
    var structure := BuildDataStructure(req, now, keyOf);
    if structure.None? {
      return None;
    }
    var filled := FillSums(structure.value, data);
    var formatted := BuildDataFormat(filled);
    r := Some(formatted);
  }

  /** The four series of a chart: planned and actual expense and income. */
  datatype ChartData = ChartData(expensePlan: seq<Group>, expenseFact: seq<Group>, incomePlan: seq<Group>, incomeFact: seq<Group>)

  datatype ChartSeries = ChartSeries(expensePlan: seq<Bucket>, expenseFact: seq<Bucket>, incomePlan: seq<Bucket>, incomeFact: seq<Bucket>)

  /** prepareDataForChart: buildReturnData applied to each of the four series over the same period. */
  method PrepareDataForChart(data: ChartData, req: ChartRequest, now: Date, keyOf: (ChartUnit, Date) -> string)
    returns (r: Option<ChartSeries>)
    ensures r.None? <==> StructureFails(req, now)
    ensures r.Some? ==>
              && ReturnedSeries(r.value.expensePlan, data.expensePlan, req, now, keyOf)
              && ReturnedSeries(r.value.expenseFact, data.expenseFact, req, now, keyOf)
              && ReturnedSeries(r.value.incomePlan, data.incomePlan, req, now, keyOf)
              && ReturnedSeries(r.value.incomeFact, data.incomeFact, req, now, keyOf)
    ensures r.Some? ==>
              && |r.value.expensePlan| == |r.value.expenseFact| == |r.value.incomePlan| == |r.value.incomeFact|
              && forall i :: 0 <= i < |r.value.expensePlan| ==>
                   r.value.expensePlan[i].x == r.value.expenseFact[i].x == r.value.incomePlan[i].x == r.value.incomeFact[i].x
  {
    var expensePlan := BuildReturnData(data.expensePlan, req, now, keyOf);
    var expenseFact := BuildReturnData(data.expenseFact, req, now, keyOf);
    var incomePlan := BuildReturnData(data.incomePlan, req, now, keyOf);
    var incomeFact := BuildReturnData(data.incomeFact, req, now, keyOf);
    if expensePlan.None? || expenseFact.None? || incomePlan.None? || incomeFact.None? {
      return None;
    }
    r := Some(ChartSeries(expensePlan.value, expenseFact.value, incomePlan.value, incomeFact.value));
  }
}
