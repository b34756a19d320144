/**
 * Properties of the aggregation engine: what the reducer's three modes, the
 * sleep and weight maps and the daily merge promise for all inputs.
 */
module HealthConnectLemmas {
  import opened Wrappers
  import opened Dates
  import opened HealthConnect

  /** The entry of a date map, with a missing date read as `zero`. */
  function GetOr<V>(m: map<string, V>, d: string, zero: V): V
  {
    if d in m then m[d] else zero
  }

  // ---------------------------------------------------------------------
  // Metric reducer
  // ---------------------------------------------------------------------

  lemma {:induction false} ValuesOnConcat(a: seq<MetricRecord>, b: seq<MetricRecord>, d: string)
    ensures ValuesOn(a + b, d) == ValuesOn(a, d) + ValuesOn(b, d)
  {
    if b == [] {
      assert a + b == a;
    } else {
      assert (a + b)[..|a + b| - 1] == a + b[..|b| - 1];
      ValuesOnConcat(a, b[..|b| - 1], d);
    }
  }

  lemma {:induction false} RecordDatesConcat(a: seq<MetricRecord>, b: seq<MetricRecord>)
    ensures RecordDates(a + b) == RecordDates(a) + RecordDates(b)
  {
    if b == [] {
      assert a + b == a;
    } else {
      assert (a + b)[..|a + b| - 1] == a + b[..|b| - 1];
      RecordDatesConcat(a, b[..|b| - 1]);
    }
  }

  /** Every value collected for a date comes from some record of that date carrying it. */
  lemma {:induction false} ValuesOnSound(records: seq<MetricRecord>, d: string, v: real)
    requires v in ValuesOn(records, d)
    ensures exists i :: 0 <= i < |records| && DateOf(records[i].startTime) == d && records[i].value == Some(v)
  {
    var n := |records|;
    var init, r := records[..n - 1], records[n - 1];
    if v in ValuesOn(init, d) {
      ValuesOnSound(init, d, v);
      var i :| 0 <= i < |init| && DateOf(init[i].startTime) == d && init[i].value == Some(v);
      assert records[i] == init[i];
    } else {
      assert DateOf(records[n - 1].startTime) == d && records[n - 1].value == Some(v);
    }
  }

  /** Every record of a date carrying a value contributes it. */
  lemma {:induction false} ValuesOnComplete(records: seq<MetricRecord>, d: string, i: nat)
    requires i < |records| && DateOf(records[i].startTime) == d && records[i].value.Some?
    ensures records[i].value.value in ValuesOn(records, d)
  {
    var n := |records|;
    var init := records[..n - 1];
    if i < n - 1 {
      assert init[i] == records[i];
      ValuesOnComplete(init, d, i);
    }
  }

  /** A value is collected for a date if and only if some record of that date carries it. */
  lemma ValuesOnMembers(records: seq<MetricRecord>, d: string, v: real)
    ensures v in ValuesOn(records, d) <==>
      exists i :: 0 <= i < |records| && DateOf(records[i].startTime) == d && records[i].value == Some(v)
  {
    if v in ValuesOn(records, d) {
      ValuesOnSound(records, d, v);
    }
    if exists i :: 0 <= i < |records| && DateOf(records[i].startTime) == d && records[i].value == Some(v) {
      var i :| 0 <= i < |records| && DateOf(records[i].startTime) == d && records[i].value == Some(v);
      ValuesOnComplete(records, d, i);
    }
  }

  /** The reducer has an entry for exactly the dates on which some record carries a value, in every mode. */
  lemma AggregatedDomain(records: seq<MetricRecord>, mode: Aggregation, d: string)
    ensures d in Aggregated(records, mode) <==>
      exists i :: 0 <= i < |records| && DateOf(records[i].startTime) == d && records[i].value.Some?
  {
    var vs := ValuesOn(records, d);
    if vs != [] {
      if d !in RecordDates(records) {
        NoValuesOffRecordDates(records, d);
      }
      ValuesOnMembers(records, d, vs[0]);
    }
    if exists i :: 0 <= i < |records| && DateOf(records[i].startTime) == d && records[i].value.Some? {
      var i :| 0 <= i < |records| && DateOf(records[i].startTime) == d && records[i].value.Some?;
      ValuesOnMembers(records, d, records[i].value.value);
      if d !in RecordDates(records) {
        NoValuesOffRecordDates(records, d);
      }
    }
  }

  /** No records, no dates. */
  lemma EmptyInputEmptyMap(mode: Aggregation)
    ensures Aggregated([], mode) == map[]
  {
  }

  /** A record with a null value changes nothing, wherever it stands in the input. */
  lemma NullRecordIgnored(a: seq<MetricRecord>, r: MetricRecord, b: seq<MetricRecord>, mode: Aggregation)
    requires r.value.None?
    ensures Aggregated(a + [r] + b, mode) == Aggregated(a + b, mode)
  {
    var withNull, without := a + [r] + b, a + b;
    forall d
      ensures ValuesOn(withNull, d) == ValuesOn(without, d)
    {
      ValuesOnConcat(a + [r], b, d);
      ValuesOnConcat(a, [r], d);
      ValuesOnConcat(a, b, d);
      assert ValuesOn([r], d) == [] by {
        assert [r][..0] == [];
      }
    }
    forall d | d in Aggregated(withNull, mode)
      ensures d in Aggregated(without, mode)
    {
      if d !in RecordDates(without) {
        NoValuesOffRecordDates(without, d);
      }
    }
    forall d | d in Aggregated(without, mode)
      ensures d in Aggregated(withNull, mode)
    {
      if d !in RecordDates(withNull) {
        NoValuesOffRecordDates(withNull, d);
      }
    }
  }

  lemma {:induction false} TotalConcat(x: seq<real>, y: seq<real>)
    ensures Total(x + y) == Total(x) + Total(y)
  {
    if y != [] {
      assert (x + y)[..|x + y| - 1] == x + y[..|y| - 1];
      TotalConcat(x, y[..|y| - 1]);
    } else {
      assert x + y == x;
    }
  }

  /** In `sum` mode a date's total over two runs of records is the sum of the two runs' totals. */
  lemma SumSplits(a: seq<MetricRecord>, b: seq<MetricRecord>, d: string)
    ensures GetOr(Aggregated(a + b, Sum), d, 0.0)
      == GetOr(Aggregated(a, Sum), d, 0.0) + GetOr(Aggregated(b, Sum), d, 0.0)
  {
    ValuesOnConcat(a, b, d);
    TotalConcat(ValuesOn(a, d), ValuesOn(b, d));
    RecordDatesConcat(a, b);
    if d !in RecordDates(a) {
      NoValuesOffRecordDates(a, d);
    }
    if d !in RecordDates(b) {
      NoValuesOffRecordDates(b, d);
    }
  }

  lemma OneValueReduces(mode: Aggregation, v: real)
    ensures Reduce(mode, [v]) == v
  {
    assert [v][..0] == [];
    assert Total([v]) == v;
    assert |[v]| as real == 1.0;
  }

  /** A single record with a value yields that value on its date, in every mode. */
  lemma SingleRecord(r: MetricRecord, mode: Aggregation)
    requires r.value.Some?
    ensures Aggregated([r], mode) == map[DateOf(r.startTime) := r.value.value]
  {
    SingleRecordValues(r);
    OneValueReduces(mode, r.value.value);
    AggregatedOneDate([r], mode, DateOf(r.startTime));
  }

  lemma SingleRecordValues(r: MetricRecord)
    requires r.value.Some?
    ensures RecordDates([r]) == {DateOf(r.startTime)}
    ensures ValuesOn([r], DateOf(r.startTime)) == [r.value.value]
  {
    assert [r][..0] == [];
  }

  /** Records all of one date, with some value, reduce to a one-entry map. */
  lemma AggregatedOneDate(records: seq<MetricRecord>, mode: Aggregation, d: string)
    requires RecordDates(records) == {d} && ValuesOn(records, d) != []
    ensures Aggregated(records, mode) == map[d := Reduce(mode, ValuesOn(records, d))]
  {
  }


  lemma {:induction false} TotalBounds(vs: seq<real>, lo: real, hi: real)
    requires forall k :: 0 <= k < |vs| ==> lo <= vs[k] <= hi
    ensures lo * (|vs| as real) <= Total(vs) <= hi * (|vs| as real)
  {
    if vs != [] {
      TotalBounds(vs[..|vs| - 1], lo, hi);
    }
  }

  /** Bounds that hold for every record of a date hold for every value collected for it. */
  lemma ValuesOnBounded(records: seq<MetricRecord>, d: string, lo: real, hi: real)
    requires forall i :: 0 <= i < |records| && DateOf(records[i].startTime) == d && records[i].value.Some? ==>
      lo <= records[i].value.value <= hi
    ensures forall k :: 0 <= k < |ValuesOn(records, d)| ==> lo <= ValuesOn(records, d)[k] <= hi
  {
    var vs := ValuesOn(records, d);
    forall k | 0 <= k < |vs|
      ensures lo <= vs[k] <= hi
    {
      ValuesOnMembers(records, d, vs[k]);
    }
  }

  /** In `average` mode a date's value lies between any bounds that hold for all of its values. */
  lemma AverageBounded(records: seq<MetricRecord>, d: string, lo: real, hi: real)
    requires d in Aggregated(records, Average)
    requires forall i :: 0 <= i < |records| && DateOf(records[i].startTime) == d && records[i].value.Some? ==>
      lo <= records[i].value.value <= hi
    ensures lo <= Aggregated(records, Average)[d] <= hi
  {
    var vs := ValuesOn(records, d);
    assert Aggregated(records, Average)[d] == Reduce(Average, vs);
    ValuesOnBounded(records, d, lo, hi);
    MeanBounded(vs, lo, hi);
  }

  /** The mean of values within [lo, hi] is within [lo, hi]. */
  lemma MeanBounded(vs: seq<real>, lo: real, hi: real)
    requires vs != []
    requires forall k :: 0 <= k < |vs| ==> lo <= vs[k] <= hi
    ensures lo <= Reduce(Average, vs) <= hi
  {
    TotalBounds(vs, lo, hi);
    QuotientBounds(Total(vs), |vs| as real, lo, hi);
  }

  /** In `average` mode a date's value is its `sum`-mode value divided by the number of its non-null values. */
  lemma AverageIsSumOverCount(records: seq<MetricRecord>, d: string)
    requires d in Aggregated(records, Average)
    ensures d in Aggregated(records, Sum)
    ensures Aggregated(records, Average)[d] == Aggregated(records, Sum)[d] / (|ValuesOn(records, d)| as real)
  {
  }

  lemma QuotientBounds(t: real, n: real, lo: real, hi: real)
    requires n > 0.0 && lo * n <= t <= hi * n
    ensures lo <= t / n <= hi
  {
  }

  /** A record of date `d` carrying `v`, after which no record of `d` has a value. */
  predicate LatestCarrier(records: seq<MetricRecord>, d: string, v: real, i: int)
  {
    0 <= i < |records| && DateOf(records[i].startTime) == d && records[i].value == Some(v)
    && forall j :: i < j < |records| && DateOf(records[j].startTime) == d ==> records[j].value.None?
  }

  /** The last value collected for a date comes from a record of that date after which no record of the date has a value. */
  lemma {:induction false} LastValueIsLatest(records: seq<MetricRecord>, d: string) returns (i: int)
    requires ValuesOn(records, d) != []
    ensures LatestCarrier(records, d, ValuesOn(records, d)[|ValuesOn(records, d)| - 1], i)
  {
    var n := |records|;
    var init, r := records[..n - 1], records[n - 1];
    if DateOf(r.startTime) == d && r.value.Some? {
      i := n - 1;
    } else {
      assert ValuesOn(records, d) == ValuesOn(init, d);
      i := LastValueIsLatest(init, d);
      assert records[i] == init[i];
      forall j | i < j < n && DateOf(records[j].startTime) == d
        ensures records[j].value.None?
      {
        if j < n - 1 {
          assert records[j] == init[j];
        }
      }
    }
  }

  /** In `last` mode a date's value is that of the last record of the date that has a value, in input order. */
  lemma LastIsLatestRecord(records: seq<MetricRecord>, d: string)
    requires d in Aggregated(records, Last)
    ensures exists i :: LatestCarrier(records, d, Aggregated(records, Last)[d], i)
  {
    AggregatedEntry(records, Last, d);
    var i := LastValueIsLatest(records, d);
  }

  /** An entry of the reducer's result is the reduction of that date's values, of which there is at least one. */
  lemma AggregatedEntry(records: seq<MetricRecord>, mode: Aggregation, d: string)
    requires d in Aggregated(records, mode)
    ensures ValuesOn(records, d) != []
    ensures Aggregated(records, mode)[d] == Reduce(mode, ValuesOn(records, d))
  {
  }

  // ---------------------------------------------------------------------
  // Sleep and weight
  // ---------------------------------------------------------------------

  /** A session's minutes count toward its start date, the next day untouched, even when it crosses midnight. */
  lemma MidnightSessionCountsForStartDate()
    ensures var s := SleepSession(Instant("2024-01-01T23:30:00.000Z", 1704151800000),
                                  Instant("2024-01-02T06:00:00.000Z", 1704175200000));
      SleepTotals([s]) == map["2024-01-01" := 390]
  {
    var s := SleepSession(Instant("2024-01-01T23:30:00.000Z", 1704151800000),
                          Instant("2024-01-02T06:00:00.000Z", 1704175200000));
    LateEveningDate(s.startTime);
    SixAndAHalfHours(s);
    SingleSession(s);
  }

  lemma SixAndAHalfHours(s: SleepSession)
    requires s.startTime.epochMs == 1704151800000 && s.endTime.epochMs == 1704175200000
    ensures DurationMinutes(s) == 390
  {
    assert s.endTime.epochMs - s.startTime.epochMs == 390 * 60000;
  }

  lemma LateEveningDate(t: Instant)
    requires t.iso == "2024-01-01T23:30:00.000Z"
    ensures DateOf(t) == "2024-01-01"
  {
    DateKeyAtFirstT(t.iso, 10);
  }

  /** A session that ends before it starts gives a negative total for its date: it is not rejected. */
  lemma NegativeDurationKept(s: SleepSession)
    requires s.endTime.epochMs < s.startTime.epochMs
    ensures SleepTotals([s]) == map[DateOf(s.startTime) := DurationMinutes(s)]
    ensures DurationMinutes(s) < 0
  {
    SingleSession(s);
  }

  /** One session: one date, carrying that session's minutes. */
  lemma SingleSession(s: SleepSession)
    ensures SleepTotals([s]) == map[DateOf(s.startTime) := DurationMinutes(s)]
  {
    assert [s][..0] == [];
    assert SessionDates([s]) == {DateOf(s.startTime)};
    assert SleepOn([s], DateOf(s.startTime)) == DurationMinutes(s);
  }

  lemma {:induction false} SleepOnConcat(a: seq<SleepSession>, b: seq<SleepSession>, d: string)
    ensures SleepOn(a + b, d) == SleepOn(a, d) + SleepOn(b, d)
  {
    if b == [] {
      assert a + b == a;
    } else {
      assert (a + b)[..|a + b| - 1] == a + b[..|b| - 1];
      SleepOnConcat(a, b[..|b| - 1], d);
    }
  }

  /** Adding one session changes only its start date, by that session's minutes. */
  lemma AddSession(sessions: seq<SleepSession>, s: SleepSession)
    ensures SleepTotals(sessions + [s]).Keys == SleepTotals(sessions).Keys + {DateOf(s.startTime)}
    ensures forall d :: d in SleepTotals(sessions) && d != DateOf(s.startTime) ==>
      SleepTotals(sessions + [s])[d] == SleepTotals(sessions)[d]
    ensures SleepTotals(sessions + [s])[DateOf(s.startTime)]
      == GetOr(SleepTotals(sessions), DateOf(s.startTime), 0) + DurationMinutes(s)
  {
    assert (sessions + [s])[..|sessions|] == sessions;
    if DateOf(s.startTime) !in SessionDates(sessions) {
      NoSleepOffSessionDates(sessions, DateOf(s.startTime));
    }
  }

  /** A date's weight is the `inKilograms` of the last record of that date, and each record's date has an entry. */
  lemma {:induction false} LatestWeightIsLastRecord(records: seq<WeightRecord>, d: string)
    requires d in LatestWeights(records)
    ensures exists i :: (0 <= i < |records| && DateOf(records[i].time) == d
      && LatestWeights(records)[d] == records[i].inKilograms
      && forall j :: i < j < |records| ==> DateOf(records[j].time) != d)
  {
    var n := |records|;
    var init := records[..n - 1];
    if DateOf(records[n - 1].time) != d {
      LatestWeightIsLastRecord(init, d);
      var i :| 0 <= i < |init| && DateOf(init[i].time) == d
        && LatestWeights(init)[d] == init[i].inKilograms
        && forall j :: i < j < |init| ==> DateOf(init[j].time) != d;
      assert records[i] == init[i];
      forall j | i < j < n
        ensures DateOf(records[j].time) != d
      {
        if j < n - 1 {
          assert records[j] == init[j];
        }
      }
    }
  }

  lemma {:induction false} WeightDatesMembers(records: seq<WeightRecord>, d: string)
    ensures d in LatestWeights(records) <==> exists i :: 0 <= i < |records| && DateOf(records[i].time) == d
  {
    if records != [] {
      var init := records[..|records| - 1];
      WeightDatesMembers(init, d);
      if exists i :: 0 <= i < |records| && DateOf(records[i].time) == d {
        var i :| 0 <= i < |records| && DateOf(records[i].time) == d;
        if i < |init| {
          assert init[i] == records[i];
        }
      }
      if d in LatestWeights(init) {
        var i :| 0 <= i < |init| && DateOf(init[i].time) == d;
        assert records[i] == init[i];
      }
    }
  }

  // ---------------------------------------------------------------------
  // Daily merge
  // ---------------------------------------------------------------------

  /** Each field is null when its metric is absent on the date or its value is zero, and otherwise is the value, rounded for steps, heart rate and calories. */
  lemma FieldsOfBuiltRecord(d: string, m: DailyMaps)
    ensures var r := BuildRecord(d, m);
      && r.recordDate == d && r.userId == None
      && (r.steps == None <==> d !in m.steps || Round(m.steps[d]) == 0)
      && (r.steps.Some? ==> r.steps.value == Round(m.steps[d]))
      && (r.heartRate == None <==> d !in m.heartRate || m.heartRate[d] == 0.0)
      && (r.heartRate.Some? ==> r.heartRate.value == Round(m.heartRate[d]))
      && (r.calories == None <==> d !in m.calories || m.calories[d] == 0.0)
      && (r.calories.Some? ==> r.calories.value == Round(m.calories[d]))
      && (r.sleepMinutes == None <==> d !in m.sleep || m.sleep[d] == 0)
      && (r.sleepMinutes.Some? ==> r.sleepMinutes.value == m.sleep[d])
      && (r.weightKg == None <==> d !in m.weight || m.weight[d] == None || m.weight[d] == Some(0.0))
      && (r.weightKg.Some? ==> m.weight[d] == r.weightKg)
  {
  }

  /** A heart rate in (0, 0.5) bpm rounds to a zero field, whereas such a step count gives null: the two null tests differ. */
  lemma SmallValuesRoundDifferently(d: string)
    ensures var m := DailyMaps(map[d := 0.25], map[d := 0.25], map[], map[], map[]);
      BuildRecord(d, m).steps == None && BuildRecord(d, m).heartRate == Some(0)
  {
  }

  /** Newest first means no date occurs twice. */
  lemma NewestFirstDistinct(rs: seq<DailyRecord>)
    requires NewestFirst(rs)
    ensures DistinctDates(rs)
  {
    forall i, j | 0 <= i < j < |rs|
      ensures rs[i].recordDate != rs[j].recordDate
    {
      EarlierIrreflexive(rs[i].recordDate);
    }
  }

  /** A newest-first list is determined by its set of dates: its head is the latest date. */
  lemma {:induction false} NewestFirstUnique(a: seq<DailyRecord>, b: seq<DailyRecord>)
    requires NewestFirst(a) && NewestFirst(b)
    requires DateSet(a) == DateSet(b)
    ensures |a| == |b|
    ensures forall i :: 0 <= i < |a| ==> a[i].recordDate == b[i].recordDate
  {
    if a == [] || b == [] {
      HeadDateInSet(a);
      HeadDateInSet(b);
    } else {
      var x, y := a[0].recordDate, b[0].recordDate;
      if x != y {
        assert y in DateSet(a);
        var r :| r in a && r.recordDate == y;
        var k :| 0 <= k < |a| && a[k] == r;
        assert x in DateSet(b);
        var r' :| r' in b && r'.recordDate == x;
        var k' :| 0 <= k' < |b| && b[k'] == r';
        EarlierAsymmetric(y, x);
      }
      NewestFirstDistinct(a);
      NewestFirstDistinct(b);
      TailDates(a);
      TailDates(b);
      NewestFirstUnique(a[1..], b[1..]);
      forall i | 0 <= i < |a|
        ensures a[i].recordDate == b[i].recordDate
      {
        if i > 0 {
          assert a[i] == a[1..][i - 1] && b[i] == b[1..][i - 1];
        }
      }
    }
  }

  lemma HeadDateInSet(a: seq<DailyRecord>)
    ensures a != [] ==> a[0].recordDate in DateSet(a)
  {
  }

  lemma TailDates(a: seq<DailyRecord>)
    requires a != [] && DistinctDates(a)
    ensures DateSet(a[1..]) == DateSet(a) - {a[0].recordDate}
  {
    forall x | x in DateSet(a[1..])
      ensures x != a[0].recordDate
    {
      var r :| r in a[1..] && r.recordDate == x;
      var k :| 0 <= k < |a[1..]| && a[1..][k] == r;
      assert a[k + 1] == r;
    }
    forall x | x in DateSet(a) && x != a[0].recordDate
      ensures x in DateSet(a[1..])
    {
      var r :| r in a && r.recordDate == x;
      var k :| 0 <= k < |a| && a[k] == r;
      assert a[1..][k - 1] == r;
    }
  }

  /** The merge's result is unique: whatever order the set of dates was first listed in, sorting yields the same list. */
  lemma MergedUnique(a: seq<DailyRecord>, b: seq<DailyRecord>, m: DailyMaps)
    requires MergedFrom(a, m) && MergedFrom(b, m)
    ensures a == b
  {
    NewestFirstUnique(a, b);
    forall i | 0 <= i < |a|
      ensures a[i] == b[i]
    {
      assert a[i] in a && b[i] in b;
    }
  }

  /** No dates in any map, no records. */
  lemma EmptyMapsNoRecords(rs: seq<DailyRecord>)
    requires MergedFrom(rs, DailyMaps(map[], map[], map[], map[], map[]))
    ensures rs == []
  {
    HeadDateInSet(rs);

  }

  /** Empty raw input for all five metrics gives an empty list, not an error. */
  lemma EmptyInputsNoRecords(rs: seq<DailyRecord>)
    requires MergedFrom(rs, DailyMapsOf([], [], [], [], []))
    ensures rs == []
  {
    assert DailyMapsOf([], [], [], [], []) == DailyMaps(map[], map[], map[], map[], map[]);
    EmptyMapsNoRecords(rs);
  }

  function WeightOnlyMaps(): DailyMaps
  {
    DailyMaps(map[], map[], map[], map[], map["2024-01-01" := Some(70.2), "2024-01-02" := Some(70.5)])
  }

  function WeightOnlyRecords(): seq<DailyRecord>
  {
    [DailyRecord("2024-01-02", None, None, None, None, Some(70.5), None),
     DailyRecord("2024-01-01", None, None, None, None, Some(70.2), None)]
  }

  lemma WeightOnlyRecordsMerged()
    ensures MergedFrom(WeightOnlyRecords(), WeightOnlyMaps())
  {
    WeightOnlyDates();
    WeightOnlyBuilt();
    WeightOnlyOrdered();
  }

  lemma WeightOnlyOrdered()
    ensures NewestFirst(WeightOnlyRecords())
  {
    var rs := WeightOnlyRecords();
    SameMonthEarlierDay();
    assert Earlier(rs[1].recordDate, rs[0].recordDate);
  }

  lemma WeightOnlyDates()
    ensures DateSet(WeightOnlyRecords()) == AllDates(WeightOnlyMaps())
  {
    assert AllDates(WeightOnlyMaps()) == {"2024-01-01", "2024-01-02"};
    assert DateSet(WeightOnlyRecords()) == {"2024-01-02", "2024-01-01"};
  }

  lemma WeightOnlyBuilt()
    ensures forall r :: r in WeightOnlyRecords() ==> r == BuildRecord(r.recordDate, WeightOnlyMaps())
  {
    var m, expected := WeightOnlyMaps(), WeightOnlyRecords();
    assert expected[0] == BuildRecord("2024-01-02", m);
    assert expected[1] == BuildRecord("2024-01-01", m);
  }

  /** Two weight readings on two days and nothing else give two records, newest first, with only the weight set. */
  lemma WeightOnlyExample(rs: seq<DailyRecord>)
    requires MergedFrom(rs, WeightOnlyMaps())
    ensures rs == WeightOnlyRecords()
  {
    WeightOnlyRecordsMerged();
    MergedUnique(rs, WeightOnlyRecords(), WeightOnlyMaps());
  }
}
