/**
 * The daily aggregation engine of the health service: raw per-metric
 * records are grouped by UTC calendar date, reduced per metric, and merged
 * into one record per date, newest first.
 */
module HealthConnect {
  import opened Wrappers
  import opened Dates

  /** A steps, heart-rate or calories record: its start and its payload (`count`, `beatsPerMinute`, `energy`), which may be null. */
  datatype MetricRecord = MetricRecord(startTime: Instant, value: Option<real>)

  /** The three ways a metric's values of one date are collapsed. */
  datatype Aggregation = Sum | Average | Last

  datatype SleepSession = SleepSession(startTime: Instant, endTime: Instant)

  /** A weight reading: its `time` and its `weight.inKilograms`. */
  datatype WeightRecord = WeightRecord(time: Instant, inKilograms: Option<real>)

  /** The per-date accumulator of the reducer's first pass. */
  datatype Bucket = Bucket(values: seq<real>, count: nat)

  /** One merged record per date; `userId` is attached later by the screen. */
  datatype DailyRecord = DailyRecord(
    recordDate: string,
    steps: Option<int>,
    heartRate: Option<int>,
    calories: Option<int>,
    sleepMinutes: Option<int>,
    weightKg: Option<real>,
    userId: Option<string>)

  /** The five per-metric date maps the merge consumes. */
  datatype DailyMaps = DailyMaps(
    steps: map<string, real>,
    heartRate: map<string, real>,
    calories: map<string, real>,
    sleep: map<string, int>,
    weight: map<string, Option<real>>)

  // ---------------------------------------------------------------------
  // Metric reducer
  // ---------------------------------------------------------------------

  /** `values.reduce((a, b) => a + b, 0)`. */
  function Total(vs: seq<real>): real
  {
    if vs == [] then 0.0 else Total(vs[..|vs| - 1]) + vs[|vs| - 1]
  }

  function Reduce(mode: Aggregation, vs: seq<real>): real
    requires vs != []
  {
    match mode
    case Sum => Total(vs)
    case Average => Total(vs) / (|vs| as real)
    case Last => vs[|vs| - 1]
  }

  /** The dates on which some record starts. */
  function RecordDates(records: seq<MetricRecord>): set<string>
  {
    if records == [] then {}
    else RecordDates(records[..|records| - 1]) + {DateOf(records[|records| - 1].startTime)}
  }

  /** The non-null values of the records starting on date `d`, in input order. */
  function ValuesOn(records: seq<MetricRecord>, d: string): seq<real>
  {
    if records == [] then []
    else
      var r := records[|records| - 1];
      ValuesOn(records[..|records| - 1], d)
        + (if DateOf(r.startTime) == d && r.value.Some? then [r.value.value] else [])
  }

  lemma {:induction false} NoValuesOffRecordDates(records: seq<MetricRecord>, d: string)
    requires d !in RecordDates(records)
    ensures ValuesOn(records, d) == []
  {
    if records != [] {
      NoValuesOffRecordDates(records[..|records| - 1], d);
    }
  }

  /** The reducer's result: each date with at least one value, mapped to the reduction of its values. */
  function Aggregated(records: seq<MetricRecord>, mode: Aggregation): map<string, real>
  {
    map d | d in RecordDates(records) && ValuesOn(records, d) != [] :: Reduce(mode, ValuesOn(records, d))
  }

  /** The buckets of the first pass after the records `rs`: per date seen, its values and their number. */
  function Buckets(rs: seq<MetricRecord>): map<string, Bucket>
  {
    map d | d in RecordDates(rs) :: Bucket(ValuesOn(rs, d), |ValuesOn(rs, d)|)
  }

  /** Adding one record changes the values of its own date only, by its value if it has one. */
  lemma ValuesOnSnoc(rs: seq<MetricRecord>, r: MetricRecord, d: string)
    ensures ValuesOn(rs + [r], d)
      == ValuesOn(rs, d) + (if DateOf(r.startTime) == d && r.value.Some? then [r.value.value] else [])
  {
    assert (rs + [r])[..|rs|] == rs;
  }

  /** `if (!dailyData[date]) dailyData[date] = { values: [], count: 0 }`. */
  function OpenBucket(buckets: map<string, Bucket>, date: string): (r: map<string, Bucket>)
    ensures r.Keys == buckets.Keys + {date}
  {
    if date in buckets then buckets else buckets[date := Bucket([], 0)]
  }

  /** `dailyData[date].values.push(value); dailyData[date].count += 1`. */
  function AddValue(buckets: map<string, Bucket>, date: string, v: real): (r: map<string, Bucket>)
    requires date in buckets
    ensures r.Keys == buckets.Keys
  {
    buckets[date := Bucket(buckets[date].values + [v], buckets[date].count + 1)]
  }

  /** A record without a value only opens a bucket for its date. */
  lemma BucketsStepNull(rs: seq<MetricRecord>, r: MetricRecord)
    requires r.value.None?
    ensures Buckets(rs + [r]) == OpenBucket(Buckets(rs), DateOf(r.startTime))
  {
    var date := DateOf(r.startTime);
    var after, expected := Buckets(rs + [r]), OpenBucket(Buckets(rs), date);
    assert (rs + [r])[..|rs|] == rs;
    if date !in RecordDates(rs) {
      NoValuesOffRecordDates(rs, date);
    }
    forall d | d in after
      ensures after[d] == expected[d]
    {
      ValuesOnSnoc(rs, r, d);
    }
  }

  /** A record with a value opens a bucket for its date and appends the value to it. */
  lemma BucketsStepValue(rs: seq<MetricRecord>, r: MetricRecord)
    requires r.value.Some?
    ensures var date := DateOf(r.startTime);
      Buckets(rs + [r]) == AddValue(OpenBucket(Buckets(rs), date), date, r.value.value)
  {
    var date := DateOf(r.startTime);
    var after, expected := Buckets(rs + [r]), AddValue(OpenBucket(Buckets(rs), date), date, r.value.value);
    assert (rs + [r])[..|rs|] == rs;
    if date !in RecordDates(rs) {
      NoValuesOffRecordDates(rs, date);
    }
    forall d | d in after
      ensures after[d] == expected[d]
    {
      ValuesOnSnoc(rs, r, d);
    }
  }

  /** The second pass after reducing the buckets of the dates in `done`. */
  function Reduced(buckets: map<string, Bucket>, done: set<string>, mode: Aggregation): map<string, real>
    requires done <= buckets.Keys
  {
    map d | d in done && buckets[d].values != [] :: Reduce(mode, buckets[d].values)
  }

  /** One step of the second pass: one more date is reduced, if its bucket holds a value. */
  lemma ReducedStep(buckets: map<string, Bucket>, done: set<string>, date: string, mode: Aggregation)
    requires done <= buckets.Keys && date in buckets
    ensures Reduced(buckets, done + {date}, mode) ==
      if buckets[date].values != [] then Reduced(buckets, done, mode)[date := Reduce(mode, buckets[date].values)]
      else Reduced(buckets, done, mode)
  {
  }

  /** Both passes together compute the reducer's result. */
  lemma ReducedBuckets(records: seq<MetricRecord>, mode: Aggregation)
    ensures Reduced(Buckets(records), RecordDates(records), mode) == Aggregated(records, mode)
  {
  }

  /** The second pass of `aggregateDataByDate`: each bucket holding a value is reduced by the mode. */
  method ReduceBuckets(dailyData: map<string, Bucket>, mode: Aggregation) returns (result: map<string, real>)
    ensures result == Reduced(dailyData, dailyData.Keys, mode)
  {
    result := map[];
    var pending := dailyData.Keys;
    while pending != {}
      invariant pending <= dailyData.Keys
      invariant result == Reduced(dailyData, dailyData.Keys - pending, mode)
      decreases pending
    {
      var date :| date in pending;
      ReducedStep(dailyData, dailyData.Keys - pending, date, mode);
      assert dailyData.Keys - (pending - {date}) == (dailyData.Keys - pending) + {date};
      var values := dailyData[date].values;
      if |values| > 0 {
        match mode
        case Sum => result := result[date := Total(values)];
        case Average => result := result[date := Total(values) / (|values| as real)];
        case Last => result := result[date := values[|values| - 1]];
      }
      pending := pending - {date};
    }
  }

  /**
   * `aggregateDataByDate`: a first pass fills one bucket per date with the
   * non-null values; a second pass over the buckets reduces each non-empty one.
   */
  method AggregateByDate(records: seq<MetricRecord>, mode: Aggregation) returns (result: map<string, real>)
    ensures result == Aggregated(records, mode)
  {
    var dailyData: map<string, Bucket> := map[];
    var i := 0;
    while i < |records|
      invariant 0 <= i <= |records|
      invariant dailyData == Buckets(records[..i])
    {
      var record := records[i];
      var date := DateOf(record.startTime);
      assert records[..i + 1] == records[..i] + [record];
      dailyData := OpenBucket(dailyData, date);
      if record.value.Some? {
        dailyData := AddValue(dailyData, date, record.value.value);
        BucketsStepValue(records[..i], record);
      } else {
        BucketsStepNull(records[..i], record);
      }
      i := i + 1;
    }
    assert records[..|records|] == records;

    result := ReduceBuckets(dailyData, mode);
    assert dailyData.Keys == RecordDates(records);
    ReducedBuckets(records, mode);
  }

  // ---------------------------------------------------------------------
  // Sleep and weight date maps
  // ---------------------------------------------------------------------

  /** `Math.floor((endTime - startTime) / 60000)`: whole minutes, rounded down, negative when the session ends before it starts. */
  function DurationMinutes(s: SleepSession): (m: int)
    ensures m * 60000 <= s.endTime.epochMs - s.startTime.epochMs < (m + 1) * 60000
  {
    (s.endTime.epochMs - s.startTime.epochMs) / 60000
  }

  function SessionDates(sessions: seq<SleepSession>): set<string>
  {
    if sessions == [] then {}
    else SessionDates(sessions[..|sessions| - 1]) + {DateOf(sessions[|sessions| - 1].startTime)}
  }

  /** The minutes of all sessions that start on date `d`. */
  function SleepOn(sessions: seq<SleepSession>, d: string): int
  {
    if sessions == [] then 0
    else
      var s := sessions[|sessions| - 1];
      SleepOn(sessions[..|sessions| - 1], d) + (if DateOf(s.startTime) == d then DurationMinutes(s) else 0)
  }

  lemma {:induction false} NoSleepOffSessionDates(sessions: seq<SleepSession>, d: string)
    requires d !in SessionDates(sessions)
    ensures SleepOn(sessions, d) == 0
  {
    if sessions != [] {
      NoSleepOffSessionDates(sessions[..|sessions| - 1], d);
    }
  }

  function SleepTotals(sessions: seq<SleepSession>): map<string, int>
  {
    map d | d in SessionDates(sessions) :: SleepOn(sessions, d)
  }

  /** The sleep loop of `getAllHealthDataByDateRange`: each session's minutes are added to its start date. */
  method SleepByDate(sessions: seq<SleepSession>) returns (sleepByDate: map<string, int>)
    ensures sleepByDate == SleepTotals(sessions)
  {
    sleepByDate := map[];
    var i := 0;
    while i < |sessions|
      invariant 0 <= i <= |sessions|
      invariant sleepByDate.Keys == SessionDates(sessions[..i])
      invariant forall d :: d in sleepByDate ==> sleepByDate[d] == SleepOn(sessions[..i], d)
    {
      var record := sessions[i];
      var date := DateOf(record.startTime);
      var durationMinutes := DurationMinutes(record);
      if date !in sleepByDate {
        NoSleepOffSessionDates(sessions[..i], date);
        sleepByDate := sleepByDate[date := 0];
      }
      sleepByDate := sleepByDate[date := sleepByDate[date] + durationMinutes];
      assert sessions[..i + 1][..i] == sessions[..i];
      i := i + 1;
    }
    assert sessions[..|sessions|] == sessions;
  }

  function WeightDates(records: seq<WeightRecord>): set<string>
  {
    if records == [] then {}
    else WeightDates(records[..|records| - 1]) + {DateOf(records[|records| - 1].time)}
  }

  /** The `inKilograms` of the last record whose `time` falls on date `d`. */
  function LatestWeightOn(records: seq<WeightRecord>, d: string): Option<real>
    requires d in WeightDates(records)
  {
    var r := records[|records| - 1];
    if DateOf(r.time) == d then r.inKilograms else LatestWeightOn(records[..|records| - 1], d)
  }

  function LatestWeights(records: seq<WeightRecord>): map<string, Option<real>>
  {
    map d | d in WeightDates(records) :: LatestWeightOn(records, d)
  }

  /** The weight loop of `getAllHealthDataByDateRange`: each record overwrites its date's entry. */
  method WeightByDate(records: seq<WeightRecord>) returns (weightByDate: map<string, Option<real>>)
    ensures weightByDate == LatestWeights(records)
  {
    weightByDate := map[];
    var i := 0;
    while i < |records|
      invariant 0 <= i <= |records|
      invariant weightByDate.Keys == WeightDates(records[..i])
      invariant forall d :: d in weightByDate ==> weightByDate[d] == LatestWeightOn(records[..i], d)
    {
      var date := DateOf(records[i].time);
      weightByDate := weightByDate[date := records[i].inKilograms];
      assert records[..i + 1][..i] == records[..i];
      i := i + 1;
    }
    assert records[..|records|] == records;
  }

  // ---------------------------------------------------------------------
  // Daily merge
  // ---------------------------------------------------------------------

  /** `Math.round`: the nearest integer, halves rounded up. */
  function Round(x: real): (r: int)
    ensures r as real - 0.5 <= x < r as real + 0.5
  {
    (x + 0.5).Floor
  }

  /** `Math.round(m[d]) || null`: absent, or rounding to zero, gives null. */
  function RoundedOrNull(m: map<string, real>, d: string): Option<int>
  {
    if d in m && Round(m[d]) != 0 then Some(Round(m[d])) else None
  }

  /** `m[d] ? Math.round(m[d]) : null`: absent, or exactly zero before rounding, gives null. */
  function RoundedIfTruthy(m: map<string, real>, d: string): Option<int>
  {
    if d in m && m[d] != 0.0 then Some(Round(m[d])) else None
  }

  /** `m[d] || null` on whole minutes. */
  function MinutesOrNull(m: map<string, int>, d: string): Option<int>
  {
    if d in m && m[d] != 0 then Some(m[d]) else None
  }

  /** `m[d] || null` on a weight that may itself be missing. */
  function WeightOrNull(m: map<string, Option<real>>, d: string): Option<real>
  {
    if d in m && m[d].Some? && m[d].value != 0.0 then m[d] else None
  }

  /** The object literal built for one date. */
  function BuildRecord(d: string, m: DailyMaps): DailyRecord
  {
    DailyRecord(d,
      RoundedOrNull(m.steps, d),
      RoundedIfTruthy(m.heartRate, d),
      RoundedIfTruthy(m.calories, d),
      MinutesOrNull(m.sleep, d),
      WeightOrNull(m.weight, d),
      None)
  }

  function AllDates(m: DailyMaps): set<string>
  {
    m.steps.Keys + m.heartRate.Keys + m.calories.Keys + m.sleep.Keys + m.weight.Keys
  }

  function DateSet(rs: seq<DailyRecord>): set<string>
  {
    set r | r in rs :: r.recordDate
  }

  /** Strictly descending by date, the order `result.sort` leaves for distinct dates. */
  predicate NewestFirst(rs: seq<DailyRecord>)
  {
    forall i, j :: 0 <= i < j < |rs| ==> Earlier(rs[j].recordDate, rs[i].recordDate)
  }

  predicate DistinctDates(rs: seq<DailyRecord>)
  {
    forall i, j :: 0 <= i < j < |rs| ==> rs[i].recordDate != rs[j].recordDate
  }

  /** What the merge returns: one record per date of the union, each built from the maps, newest first. */
  predicate MergedFrom(rs: seq<DailyRecord>, m: DailyMaps)
  {
    && DateSet(rs) == AllDates(m)
    && NewestFirst(rs)
    && forall r :: r in rs ==> r == BuildRecord(r.recordDate, m)
  }

  /**
   * The records of `s[..n]` are newest first, except that the record at
   * `hole` may still be newer than those before it.
   */
  predicate NewestFirstBut(s: seq<DailyRecord>, n: nat, hole: int)
    requires n <= |s|
  {
    forall p, q :: 0 <= p < q < n && q != hole ==> Earlier(s[q].recordDate, s[p].recordDate)
  }

  /** One swap of the insertion moves the hole one place to the front and keeps the records and their dates. */
  lemma SwapStep(s: seq<DailyRecord>, j: nat, i: nat)
    requires 0 < j <= i < |s|
    requires NewestFirstBut(s, i + 1, j) && DistinctDates(s)
    requires Earlier(s[j - 1].recordDate, s[j].recordDate)
    ensures var t := s[j - 1 := s[j]][j := s[j - 1]];
      NewestFirstBut(t, i + 1, j - 1) && DistinctDates(t) && multiset(t) == multiset(s)
  {
    var t := s[j - 1 := s[j]][j := s[j - 1]];
    forall p, q | 0 <= p < q < |t|
      ensures t[p].recordDate != t[q].recordDate
    {
      var p' := if p == j - 1 then j else if p == j then j - 1 else p;
      var q' := if q == j - 1 then j else if q == j then j - 1 else q;
      assert t[p] == s[p'] && t[q] == s[q'];
    }
    forall p, q | 0 <= p < q < i + 1 && q != j - 1
      ensures Earlier(t[q].recordDate, t[p].recordDate)
    {
      var p' := if p == j - 1 then j else if p == j then j - 1 else p;
      var q' := if q == j - 1 then j else if q == j then j - 1 else q;
      assert t[p] == s[p'] && t[q] == s[q'];
    }
  }

  /** When the inserted record is older than its predecessor, or first, the prefix is newest first. */
  lemma InsertionDone(s: seq<DailyRecord>, j: nat, i: nat)
    requires j <= i < |s|
    requires NewestFirstBut(s, i + 1, j) && DistinctDates(s)
    requires j == 0 || !Earlier(s[j - 1].recordDate, s[j].recordDate)
    ensures NewestFirstBut(s, i + 1, -1)
  {
    if j > 0 {
      EarlierTotal(s[j - 1].recordDate, s[j].recordDate);
      forall p | 0 <= p < j - 1
        ensures Earlier(s[j].recordDate, s[p].recordDate)
      {
        EarlierTransitive(s[j].recordDate, s[j - 1].recordDate, s[p].recordDate);
      }
    }
  }

  /** `result.sort((a, b) => new Date(b.recordDate) - new Date(a.recordDate))`, by insertion. */
  method SortNewestFirst(a: array<DailyRecord>)
    requires DistinctDates(a[..])
    modifies a
    ensures multiset(a[..]) == multiset(old(a[..]))
    ensures NewestFirst(a[..])
  {
    var i := 0;
    while i < a.Length
      invariant 0 <= i <= a.Length
      invariant multiset(a[..]) == multiset(old(a[..]))
      invariant DistinctDates(a[..])
      invariant NewestFirstBut(a[..], i, -1)
    {
      var j := i;
      while j > 0 && Earlier(a[j - 1].recordDate, a[j].recordDate)
        invariant 0 <= j <= i
        invariant multiset(a[..]) == multiset(old(a[..]))
        invariant DistinctDates(a[..])
        invariant NewestFirstBut(a[..], i + 1, j)
      {
        ghost var s := a[..];
        a[j - 1], a[j] := a[j], a[j - 1];
        assert a[..] == s[j - 1 := s[j]][j := s[j - 1]];
        SwapStep(s, j, i);
        j := j - 1;
      }
      InsertionDone(a[..], j, i);
      i := i + 1;
    }
  }

  /** `Array.from(allDates)`: the dates of a set, each once, in some order. */
  method SetToSeq(dateSet: set<string>) returns (dates: seq<string>)
    ensures forall x :: x in dateSet <==> x in dates
    ensures forall p, q :: 0 <= p < q < |dates| ==> dates[p] != dates[q]
  {
    dates := [];
    var rest := dateSet;
    while rest != {}
      invariant rest <= dateSet
      invariant forall x :: x in dateSet <==> x in rest || x in dates
      invariant forall k :: 0 <= k < |dates| ==> dates[k] !in rest
      invariant forall p, q :: 0 <= p < q < |dates| ==> dates[p] != dates[q]
      decreases rest
    {
      var d :| d in rest;
      dates := dates + [d];
      rest := rest - {d};
    }
  }

  /** A permutation of records built one per date keeps the set of dates and the way each was built. */
  lemma PermutedRecords(rs: seq<DailyRecord>, records: seq<DailyRecord>, dates: seq<string>, m: DailyMaps)
    requires |records| == |dates|
    requires forall k :: 0 <= k < |dates| ==> records[k] == BuildRecord(dates[k], m)
    requires multiset(rs) == multiset(records)
    ensures DateSet(rs) == set x | x in dates
    ensures forall r :: r in rs ==> r == BuildRecord(r.recordDate, m)
  {
    forall r | r in rs
      ensures r in records
    {
      assert r in multiset(rs);
    }
    forall x | x in dates
      ensures x in DateSet(rs)
    {
      var k :| 0 <= k < |dates| && dates[k] == x;
      assert records[k] in multiset(records);
      assert records[k] in rs;
    }
  }

  /**
   * The merge in `getAllHealthDataByDateRange`: collect the union of the
   * dates, build one record per date, sort newest first.
   */
  method MergeDaily(m: DailyMaps) returns (rs: seq<DailyRecord>)
    ensures MergedFrom(rs, m)
  {
    var dates := SetToSeq(AllDates(m));
    var records := seq(|dates|, k requires 0 <= k < |dates| => BuildRecord(dates[k], m));
    var a := new DailyRecord[|records|](k requires 0 <= k < |records| => records[k]);
    assert a[..] == records;
    SortNewestFirst(a);
    rs := a[..];
    PermutedRecords(rs, records, dates, m);
  }

  /** The five date maps `getAllHealthDataByDateRange` builds from its five record lists. */
  function DailyMapsOf(
    steps: seq<MetricRecord>, heartRate: seq<MetricRecord>, calories: seq<MetricRecord>,
    sleep: seq<SleepSession>, weight: seq<WeightRecord>): DailyMaps
  {
    DailyMaps(Aggregated(steps, Sum), Aggregated(heartRate, Average), Aggregated(calories, Sum),
      SleepTotals(sleep), LatestWeights(weight))
  }

  /** `getAllHealthDataByDateRange` once the five lists are fetched. */
  method GetAllHealthData(
    steps: seq<MetricRecord>, heartRate: seq<MetricRecord>, calories: seq<MetricRecord>,
    sleep: seq<SleepSession>, weight: seq<WeightRecord>) returns (rs: seq<DailyRecord>)
    ensures MergedFrom(rs, DailyMapsOf(steps, heartRate, calories, sleep, weight))
  {
    var stepsByDate := AggregateByDate(steps, Sum);
    var heartRateByDate := AggregateByDate(heartRate, Average);
    var caloriesByDate := AggregateByDate(calories, Sum);
    var sleepByDate := SleepByDate(sleep);
    var weightByDate := WeightByDate(weight);
    rs := MergeDaily(DailyMaps(stepsByDate, heartRateByDate, caloriesByDate, sleepByDate, weightByDate));
  }
}
