/**
 * The remote-service client's own logic: classifying the availability probe
 * and filtering fetched records to a date range on the client.
 */
module Api {
  import opened Dates
  import opened HealthConnect

  /** The availability states the screen shows. */
  datatype Availability = Checking | Online | Starting | Offline | Error

  datatype ServerStatus = ServerStatus(status: Availability, message: string)

  /**
   * How the probe request `GET /health/records?userId=healthcheck` ended:
   * with a 2xx response (any body), or with an error carrying axios' code.
   * A response with any other status makes axios reject, so it is a `Failed`
   * outcome too. The request's 60-second timeout surfaces as the code
   * `ECONNABORTED`.
   */
  datatype ProbeOutcome = Responded | Failed(code: string)

  const TimeoutCode := "ECONNABORTED"

  /** `checkServerHealth`: classify the probe; it never throws. */
  function CheckServerHealth(outcome: ProbeOutcome): (s: ServerStatus)
  {
    match outcome
    case Responded => ServerStatus(Online, "서버가 준비되었습니다")
    case Failed(code) =>
      if code == TimeoutCode then ServerStatus(Starting, "서버가 시작 중입니다...")
      else ServerStatus(Offline, "서버 연결 실패")
  }

  /** Each of the three results arises from exactly one kind of outcome, and the probe never reports `checking` or `error`. */
  lemma ProbeClassification(outcome: ProbeOutcome)
    ensures CheckServerHealth(outcome).status == Online <==> outcome.Responded?
    ensures CheckServerHealth(outcome).status == Starting <==> outcome == Failed(TimeoutCode)
    ensures CheckServerHealth(outcome).status == Offline <==> outcome.Failed? && outcome.code != TimeoutCode
    ensures CheckServerHealth(outcome).status !in {Checking, Error}
  {
  }

  /** `recordDate >= new Date(startDate) && recordDate <= new Date(endDate)`: both ends inclusive. */
  predicate InRange(date: string, startDate: string, endDate: string)
  {
    !Earlier(date, startDate) && !Earlier(endDate, date)
  }

  /** `a` is `b` with some elements left out, the rest in their order. */
  predicate IsSubsequence<T(==)>(a: seq<T>, b: seq<T>)
  {
    if a == [] then true
    else if b == [] then false
    else if a[|a| - 1] == b[|b| - 1] then IsSubsequence(a[..|a| - 1], b[..|b| - 1])
    else IsSubsequence(a, b[..|b| - 1])
  }

  /**
   * The client-side filter of `getRecordsByDateRange`: the in-range records,
   * in the server's order, each as often as it was sent. The server's records
   * are modelled with the merge's `DailyRecord` shape; the filter reads only
   * `recordDate`, so any further fields the server sends are left out.
   */
  function RecordsInDateRange(records: seq<DailyRecord>, startDate: string, endDate: string): (r: seq<DailyRecord>)
    ensures IsSubsequence(r, records)
    ensures forall x :: x in r ==> InRange(x.recordDate, startDate, endDate)
    ensures forall x :: multiset(r)[x] == if InRange(x.recordDate, startDate, endDate) then multiset(records)[x] else 0
  {
    if records == [] then []
    else
      var init, last := records[..|records| - 1], records[|records| - 1];
      assert records == init + [last];
      var kept := RecordsInDateRange(init, startDate, endDate);
      if InRange(last.recordDate, startDate, endDate) then kept + [last] else kept
  }

  /** Filtering twice with the same range changes nothing more. */
  lemma {:induction false} FilterIdempotent(records: seq<DailyRecord>, startDate: string, endDate: string)
    ensures var once := RecordsInDateRange(records, startDate, endDate);
      RecordsInDateRange(once, startDate, endDate) == once
  {
    if records != [] {
      var init, last := records[..|records| - 1], records[|records| - 1];
      FilterIdempotent(init, startDate, endDate);
      var kept := RecordsInDateRange(init, startDate, endDate);
      if InRange(last.recordDate, startDate, endDate) {
        assert (kept + [last])[..|kept|] == kept;
      }
    }
  }

  /** A record dated on either end of the range is kept. */
  lemma BoundsIncluded(r: DailyRecord, startDate: string, endDate: string)
    requires r.recordDate == startDate || r.recordDate == endDate
    requires !Earlier(endDate, startDate)
    ensures RecordsInDateRange([r], startDate, endDate) == [r]
  {
    EarlierIrreflexive(startDate);
    EarlierIrreflexive(endDate);
    assert [r][..0] == [];
  }
}
