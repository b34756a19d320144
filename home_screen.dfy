/**
 * The home screen's control logic: the log buffer, the availability state
 * machine with its self-scheduled retry, fetching (from the device and from the
 * server), stamping records with the user id, and the batch publisher.
 */
module HomeScreen {
  import opened Wrappers
  import opened Dates
  import opened HealthConnect
  import opened Api

  /** The log list keeps at most this many entries. */
  const MaxLogs := 50

  datatype LogType = InfoLog | SuccessLog | WarningLog | ErrorLog

  /** `{ message, type, timestamp }`; the timestamp is the clock reading in `ko-KR` time format. */
  datatype LogEntry = LogEntry(message: string, kind: LogType, timestamp: string)

  /** The alerts the handlers show. */
  datatype Notice =
    | MissingUserId
    | HealthConnectUnavailable
    | PermissionRequestFailed
    | NoDataInRange
    | FetchedCount(count: nat)
    | FetchFailed
    | NothingToSync
    | SyncCompleted(succeeded: nat, total: nat)

  /** How the probe call ended: it returned a classified outcome, or it threw. */
  datatype ProbeAttempt = Completed(outcome: ProbeOutcome) | Threw(message: string)

  /**
   * How the permission dialog ended: with the list of granted permissions (its
   * length), or by throwing a value whose `message` (empty when missing) and
   * `toString()` are given.
   */
  datatype PermissionOutcome = PermissionsReturned(count: nat) | PermissionDialogFailed(message: string, asString: string)

  // ---------------------------------------------------------------------
  // Pure helpers
  // ---------------------------------------------------------------------

  function Min(a: int, b: int): int
  {
    if a < b then a else b
  }

  /** JavaScript's `a || b` on strings: the empty string is falsy. */
  function OrElse(a: string, b: string): string
  {
    if a == "" then b else a
  }

  /** `setLogs(prev => [logEntry, ...prev].slice(0, 50))`. */
  function PushLog(logs: seq<LogEntry>, e: LogEntry): (r: seq<LogEntry>)
    ensures |r| == Min(|logs| + 1, MaxLogs)
    ensures r[0] == e
    ensures r[1..] == logs[..|r| - 1]
  {
    ([e] + logs)[..Min(|logs| + 1, MaxLogs)]
  }

  /** The characters `String.prototype.trim` removes: white space and line terminators. */
  predicate IsJsWhitespace(c: char)
  {
    || c == '\t' || c == '\n' || c == '\U{000B}' || c == '\U{000C}' || c == '\r' || c == ' '
    || c == '\U{00A0}' || c == '\U{1680}' || ('\U{2000}' <= c <= '\U{200A}')
    || c == '\U{2028}' || c == '\U{2029}' || c == '\U{202F}' || c == '\U{205F}'
    || c == '\U{3000}' || c == '\U{FEFF}'
  }

  function TrimStart(s: string): (r: string)
    ensures |r| <= |s| && r == s[|s| - |r|..]
    ensures r == [] || !IsJsWhitespace(r[0])
    ensures forall k :: 0 <= k < |s| - |r| ==> IsJsWhitespace(s[k])
  {
    if |s| > 0 && IsJsWhitespace(s[0]) then TrimStart(s[1..]) else s
  }

  function TrimEnd(s: string): (r: string)
    ensures r <= s
    ensures r == [] || !IsJsWhitespace(r[|r| - 1])
    ensures forall k :: |r| <= k < |s| ==> IsJsWhitespace(s[k])
  {
    if |s| > 0 && IsJsWhitespace(s[|s| - 1]) then TrimEnd(s[..|s| - 1]) else s
  }

  /** `s.trim()`. */
  function Trim(s: string): string
  {
    TrimEnd(TrimStart(s))
  }

  /** `!s.trim()`: nothing but white space. */
  predicate Blank(s: string)
  {
    Trim(s) == ""
  }

  /** `data.map(item => ({ ...item, userId }))`. */
  function StampUserId(data: seq<DailyRecord>, userId: string): (r: seq<DailyRecord>)
    ensures |r| == |data|
    ensures forall i :: 0 <= i < |r| ==> r[i].userId == Some(userId) && r[i].(userId := data[i].userId) == data[i]
  {
    seq(|data|, i requires 0 <= i < |data| => data[i].(userId := Some(userId)))
  }

  /** `getServerStatusColor`. */
  function ServerStatusColor(status: Availability): string
  {
    match status
    case Online => "#34C759"
    case Starting => "#FF9500"
    case Checking => "#007AFF"
    case _ => "#FF3B30"
  }

  /** The number of the first `n` submissions that succeed. */
  function CountAccepted(accepted: nat -> bool, n: nat): (c: nat)
    ensures c <= n
  {
    if n == 0 then 0 else CountAccepted(accepted, n - 1) + (if accepted(n - 1) then 1 else 0)
  }

  // ---------------------------------------------------------------------
  // What one handler call leaves behind, as functions of the inputs
  // ---------------------------------------------------------------------

  /** The status a probe leaves: the classification, or `error` when the call throws. */
  function StatusAfterProbe(attempt: ProbeAttempt): ServerStatus
  {
    match attempt
    case Completed(outcome) => CheckServerHealth(outcome)
    case Threw(_) => ServerStatus(Error, "서버 상태 확인 실패")
  }

  /** Retries a probe arms: one exactly when it found the server starting. */
  function RetriesArmed(attempt: ProbeAttempt): nat
  {
    if StatusAfterProbe(attempt).status == Starting then 1 else 0
  }

  /** The log entries a probe adds, oldest first. */
  function ProbeLogEntries(attempt: ProbeAttempt, now: string): seq<LogEntry>
  {
    var started := LogEntry("서버 상태 확인 시작...", InfoLog, now);
    match attempt
    case Completed(outcome) =>
      var status := CheckServerHealth(outcome);
      var shown := LogEntry("서버 상태: " + status.message, if status.status == Online then SuccessLog else WarningLog, now);
      if status.status == Starting then [started, shown, LogEntry("서버 시작 중... 5초 후 재시도", WarningLog, now)]
      else [started, shown]
    case Threw(message) =>
      [started, LogEntry("서버 상태 확인 실패: " + OrElse(message, "알 수 없는 오류"), ErrorLog, now)]
  }


  /** The log list after adding `entries` one by one. */
  function PushLogs(logs: seq<LogEntry>, entries: seq<LogEntry>): seq<LogEntry>
    decreases |entries|
  {
    if entries == [] then logs else PushLog(PushLogs(logs, entries[..|entries| - 1]), entries[|entries| - 1])
  }

  /** Whether `requestHealthConnectPermissions` resolves to true. */
  predicate PermissionGranted(available: bool, outcome: PermissionOutcome)
  {
    available && outcome.PermissionsReturned? && outcome.count > 0
  }

  /** The alert `requestHealthConnectPermissions` shows, if any. */
  function PermissionNotice(available: bool, outcome: PermissionOutcome): Option<Notice>
  {
    if !available then Some(HealthConnectUnavailable)
    else if outcome.PermissionDialogFailed? then Some(PermissionRequestFailed)
    else None
  }

  /** The log entries `requestHealthConnectPermissions` adds, oldest first. */
  function PermissionLogEntries(available: bool, outcome: PermissionOutcome, now: string): seq<LogEntry>
  {
    [LogEntry("Health Connect 권한 요청 시작...", InfoLog, now)]
    + if !available then [LogEntry("Health Connect 사용 불가", ErrorLog, now)]
      else
        [LogEntry("Health Connect 권한 대화상자 표시 중...", InfoLog, now)]
        + match outcome
          case PermissionsReturned(count) =>
            [LogEntry("권한 요청 결과: " + (if count > 0 then "승인됨" else "거부됨"),
                      if count > 0 then SuccessLog else ErrorLog, now)]
          case PermissionDialogFailed(message, asString) =>
            [LogEntry("Health Connect 권한 요청 오류: " + OrElse(message, asString), ErrorLog, now)]
  }

  /** The log entries `initHealthConnect` adds, oldest first. */
  function InitLogEntries(available: bool, initialized: bool, now: string): seq<LogEntry>
  {
    [LogEntry("Health Connect 초기화 시작...", InfoLog, now),
     LogEntry("Health Connect 사용 가능: " + (if available then "true" else "false"),
              if available then SuccessLog else WarningLog, now)]
    + if !available then [LogEntry("이 기기에서는 Health Connect를 사용할 수 없습니다", WarningLog, now)]
      else
        [LogEntry("Health Connect 초기화: " + (if initialized then "성공" else "실패"),
                  if initialized then SuccessLog else ErrorLog, now)]
        + (if initialized then [] else [LogEntry("Health Connect 초기화 실패", ErrorLog, now)])
  }

  // ---------------------------------------------------------------------
  // The screen's state and handlers
  // ---------------------------------------------------------------------

  class Screen {
    var userId: string
    var serverStatus: ServerStatus
    var healthData: seq<DailyRecord>
    var logs: seq<LogEntry>
    var healthConnectAvailable: bool
    var healthConnectInitialized: bool
    /** Armed `setTimeout(() => checkServerStatus(), 5000)` calls that have not fired yet. */
    var pendingRetries: nat
    /** The status on display while the most recent probe was in flight. */
    ghost var statusDuringProbe: ServerStatus

    /** The log list never holds more than its cap. */
    predicate Valid()
      reads this
    {
      |logs| <= MaxLogs
    }

    /** The initial `useState` values. */
    constructor ()
      ensures userId == "" && healthData == [] && logs == []
      ensures serverStatus == ServerStatus(Checking, "서버 상태 확인 중...")
      ensures !healthConnectAvailable && !healthConnectInitialized && pendingRetries == 0
      ensures Valid()
    {
      userId := "";
      serverStatus := ServerStatus(Checking, "서버 상태 확인 중...");
      healthData := [];
      logs := [];
      healthConnectAvailable := false;
      healthConnectInitialized := false;
      pendingRetries := 0;
      statusDuringProbe := ServerStatus(Checking, "서버 상태 확인 중...");
    }

    /** The text field's `onChangeText={setUserId}`. */
    method SetUserId(id: string)
      modifies this`userId
      ensures userId == id
    {
      userId := id;
    }

    /** `addLog`: the new entry goes first, the list keeps its newest 50 entries. */
    method AddLog(message: string, kind: LogType, now: string)
      modifies this`logs
      ensures logs == PushLog(old(logs), LogEntry(message, kind, now))
      ensures Valid()
    {
      logs := PushLog(logs, LogEntry(message, kind, now));
    }

    /** `checkServerStatus`: probe, show the result, and arm one retry when the server is starting. */
    method CheckServerStatus(attempt: ProbeAttempt, now: string)
      modifies this`logs, this`serverStatus, this`pendingRetries, this`statusDuringProbe
      ensures statusDuringProbe == old(serverStatus)
      ensures serverStatus == StatusAfterProbe(attempt)
      ensures pendingRetries == old(pendingRetries) + RetriesArmed(attempt)
      ensures logs == PushLogs(old(logs), ProbeLogEntries(attempt, now))
      ensures Valid()
    {
      ghost var before := logs;
      statusDuringProbe := serverStatus;
      AddLog("서버 상태 확인 시작...", InfoLog, now);
      match attempt {
        case Completed(outcome) =>
          var status := CheckServerHealth(outcome);
          serverStatus := status;
          AddLog("서버 상태: " + status.message, if status.status == Online then SuccessLog else WarningLog, now);
          if status.status == Starting {
            AddLog("서버 시작 중... 5초 후 재시도", WarningLog, now);
            pendingRetries := pendingRetries + 1;
          }
        case Threw(message) =>
          AddLog("서버 상태 확인 실패: " + OrElse(message, "알 수 없는 오류"), ErrorLog, now);
          serverStatus := ServerStatus(Error, "서버 상태 확인 실패");
      }
      ProbePushed(before, attempt, now);
    }

    /** One armed retry fires after its 5000 ms and probes again. */
    method FireRetry(attempt: ProbeAttempt, now: string)
      requires pendingRetries > 0
      modifies this`logs, this`serverStatus, this`pendingRetries, this`statusDuringProbe
      ensures statusDuringProbe == old(serverStatus)
      ensures serverStatus == StatusAfterProbe(attempt)
      ensures pendingRetries == old(pendingRetries) - 1 + RetriesArmed(attempt)
      ensures logs == PushLogs(old(logs), ProbeLogEntries(attempt, now))
      ensures Valid()
    {
      pendingRetries := pendingRetries - 1;
      CheckServerStatus(attempt, now);
    }

    /** `wakeUpServer`: show `checking`, then probe. */
    method WakeUpServer(attempt: ProbeAttempt, now: string)
      modifies this`logs, this`serverStatus, this`pendingRetries, this`statusDuringProbe
      ensures statusDuringProbe == ServerStatus(Checking, "서버 깨우는 중...")
      ensures serverStatus == StatusAfterProbe(attempt)
      ensures pendingRetries == old(pendingRetries) + RetriesArmed(attempt)
      ensures logs == PushLogs(PushLog(old(logs), LogEntry("서버 깨우기 시작...", InfoLog, now)), ProbeLogEntries(attempt, now))
      ensures Valid()
    {
      AddLog("서버 깨우기 시작...", InfoLog, now);
      serverStatus := ServerStatus(Checking, "서버 깨우는 중...");
      CheckServerStatus(attempt, now);
    }

    /** `initHealthConnect` once the SDK's status and initialisation results are known. */
    method InitHealthConnect(available: bool, initialized: bool, now: string)
      modifies this`logs, this`healthConnectAvailable, this`healthConnectInitialized
      ensures healthConnectAvailable == available
      ensures healthConnectInitialized == if available then initialized else old(healthConnectInitialized)
      ensures logs == PushLogs(old(logs), InitLogEntries(available, initialized, now))
      ensures Valid()
    {
      ghost var before := logs;
      AddLog("Health Connect 초기화 시작...", InfoLog, now);
      healthConnectAvailable := available;
      AddLog("Health Connect 사용 가능: " + (if available then "true" else "false"),
        if available then SuccessLog else WarningLog, now);
      if available {
        healthConnectInitialized := initialized;
        AddLog("Health Connect 초기화: " + (if initialized then "성공" else "실패"),
          if initialized then SuccessLog else ErrorLog, now);
        if !initialized {
          AddLog("Health Connect 초기화 실패", ErrorLog, now);
        }
      } else {
        AddLog("이 기기에서는 Health Connect를 사용할 수 없습니다", WarningLog, now);
      }
      LastTwoPushed(before, InitLogEntries(available, initialized, now));
      LastTwoPushed(before, InitLogEntries(available, initialized, now)[..2]);
    }

    /** `requestHealthConnectPermissions`. */
    method RequestPermissions(outcome: PermissionOutcome, now: string) returns (granted: bool, notice: Option<Notice>)
      modifies this`logs
      ensures granted == PermissionGranted(healthConnectAvailable, outcome)
      ensures notice == PermissionNotice(healthConnectAvailable, outcome)
      ensures logs == PushLogs(old(logs), PermissionLogEntries(healthConnectAvailable, outcome, now))
      ensures Valid()
    {
      ghost var before := logs;
      AddLog("Health Connect 권한 요청 시작...", InfoLog, now);
      if !healthConnectAvailable {
        AddLog("Health Connect 사용 불가", ErrorLog, now);
        granted, notice := false, Some(HealthConnectUnavailable);
      } else {
        AddLog("Health Connect 권한 대화상자 표시 중...", InfoLog, now);
        match outcome {
          case PermissionsReturned(count) =>
            granted := count > 0;
            AddLog("권한 요청 결과: " + (if granted then "승인됨" else "거부됨"),
              if granted then SuccessLog else ErrorLog, now);
            notice := None;
          case PermissionDialogFailed(message, asString) =>
            AddLog("Health Connect 권한 요청 오류: " + OrElse(message, asString), ErrorLog, now);
            granted, notice := false, Some(PermissionRequestFailed);
        }
      }
      LastTwoPushed(before, PermissionLogEntries(healthConnectAvailable, outcome, now));
    }

    /**
     * `handleFetchFromHealthConnect`: a blank user id aborts; otherwise, once
     * permission is granted, the aggregated records of the five fetched lists
     * are stored, each stamped with the trimmed user id.
     */
    method FetchFromHealthConnect(
      permission: PermissionOutcome,
      steps: seq<MetricRecord>, heartRate: seq<MetricRecord>, calories: seq<MetricRecord>,
      sleep: seq<SleepSession>, weight: seq<WeightRecord>, now: string) returns (notice: Option<Notice>)
      requires Valid()
      modifies this`logs, this`healthData
      ensures Valid()
      ensures Blank(userId) ==> notice == Some(MissingUserId) && logs == old(logs) && healthData == old(healthData)
      ensures !Blank(userId) ==>
        logs == PushLogs(old(logs), PermissionLogEntries(healthConnectAvailable, permission, now))
      ensures !Blank(userId) && !PermissionGranted(healthConnectAvailable, permission) ==>
        notice == PermissionNotice(healthConnectAvailable, permission) && healthData == old(healthData)
      ensures !Blank(userId) && PermissionGranted(healthConnectAvailable, permission) ==>
        exists rs :: MergedFrom(rs, DailyMapsOf(steps, heartRate, calories, sleep, weight))
          && healthData == StampUserId(rs, Trim(userId))
          && notice == Some(if rs == [] then NoDataInRange else FetchedCount(|rs|))
    {
      if Blank(userId) {
        return Some(MissingUserId);
      }
      var hasPermissions, permissionNotice := RequestPermissions(permission, now);
      if !hasPermissions {
        return permissionNotice;
      }
      var count := LoadStamped(steps, heartRate, calories, sleep, weight, Trim(userId));
      notice := Some(if count == 0 then NoDataInRange else FetchedCount(count));
    }

    /** The `try` block of `handleFetchFromHealthConnect`: fetch, merge, stamp with the user id and store. */
    method LoadStamped(
      steps: seq<MetricRecord>, heartRate: seq<MetricRecord>, calories: seq<MetricRecord>,
      sleep: seq<SleepSession>, weight: seq<WeightRecord>, id: string) returns (count: nat)
      modifies this`healthData
      ensures exists rs :: (MergedFrom(rs, DailyMapsOf(steps, heartRate, calories, sleep, weight))
        && healthData == StampUserId(rs, id) && count == |rs|)
    {
      var data := GetAllHealthData(steps, heartRate, calories, sleep, weight);
      healthData := StampUserId(data, id);
      count := |data|;
    }

    /**
     * `handleFetchData`: a blank user id aborts; otherwise the server's records
     * for the user are kept when dated within the chosen days. `response` is
     * `None` when the request fails.
     */
    method FetchFromServer(response: Option<seq<DailyRecord>>, startDate: Instant, endDate: Instant)
      returns (notice: Option<Notice>)
      modifies this`healthData
      ensures Blank(userId) ==> notice == Some(MissingUserId) && healthData == old(healthData)
      ensures !Blank(userId) && response.None? ==> notice == Some(FetchFailed) && healthData == old(healthData)
      ensures !Blank(userId) && response.Some? ==>
        healthData == RecordsInDateRange(response.value, DateOf(startDate), DateOf(endDate))
        && notice == (if healthData == [] then Some(NoDataInRange) else None)
    {
      if Blank(userId) {
        return Some(MissingUserId);
      }
      if response.None? {
        return Some(FetchFailed);
      }
      var startDateStr := DateOf(startDate);
      var endDateStr := DateOf(endDate);
      healthData := RecordsInDateRange(response.value, startDateStr, endDateStr);
      notice := if |healthData| == 0 then Some(NoDataInRange) else None;
    }

    /**
     * `handleSyncToNotion`: submit every record once, in order, catching each
     * failure, and count the submissions that succeeded. `accepted(i)` is
     * whether the i-th submission succeeds.
     */
    method SyncToNotion(accepted: nat -> bool) returns (attempts: seq<DailyRecord>, successCount: nat, notice: Notice)
      ensures healthData == [] ==> attempts == [] && successCount == 0 && notice == NothingToSync
      ensures healthData != [] ==> attempts == healthData && notice == SyncCompleted(successCount, |healthData|)
      ensures successCount == CountAccepted(accepted, |attempts|)
      ensures successCount <= |healthData|
    {
      attempts, successCount := [], 0;
      if |healthData| == 0 {
        return attempts, successCount, NothingToSync;
      }
      var i := 0;
      while i < |healthData|
        invariant 0 <= i <= |healthData|
        invariant attempts == healthData[..i]
        invariant successCount == CountAccepted(accepted, i)
      {
        var data := healthData[i];
        attempts := attempts + [data];
        if accepted(i) {
          successCount := successCount + 1;
        }
        i := i + 1;
      }
      notice := SyncCompleted(successCount, |healthData|);
    }
  }

  /**
   * A retry re-probes without showing `checking` first: while the retry's
   * probe is in flight the screen still shows the `starting` status that
   * armed it.
   */
  method RetryKeepsStartingShown(screen: Screen, retry: ProbeAttempt, now: string)
    modifies screen
    ensures screen.statusDuringProbe.status == Starting
    ensures screen.serverStatus == StatusAfterProbe(retry)
  {
    screen.CheckServerStatus(Completed(Failed(TimeoutCode)), now);
    screen.FireRetry(retry, now);
  }

  // ---------------------------------------------------------------------
  // Lemmas
  // ---------------------------------------------------------------------

  /** Unfolds the last two pushes of `PushLogs`. */
  lemma LastTwoPushed(before: seq<LogEntry>, entries: seq<LogEntry>)
    requires |entries| >= 2
    ensures PushLogs(before, entries)
      == PushLog(PushLog(PushLogs(before, entries[..|entries| - 2]), entries[|entries| - 2]), entries[|entries| - 1])
  {
    assert entries[..|entries| - 1][..|entries| - 2] == entries[..|entries| - 2];
  }

  function Reverse<T>(s: seq<T>): (r: seq<T>)
    ensures |r| == |s|
    ensures forall i :: 0 <= i < |s| ==> r[i] == s[|s| - 1 - i]
  {
    if s == [] then [] else Reverse(s[1..]) + [s[0]]
  }

  lemma ReverseSnoc<T>(init: seq<T>, e: T)
    ensures Reverse(init + [e]) == [e] + Reverse(init)
  {
  }

  lemma PushOntoPrefix(e: LogEntry, xs: seq<LogEntry>, k: nat, n: nat)
    requires k <= |xs| && n <= k + 1
    ensures ([e] + xs[..k])[..n] == ([e] + xs)[..n]
  {
  }

  /** After any run of `addLog` calls the list holds the newest entries first, at most 50 of them. */
  lemma {:induction false} LogsNewestFirst(logs: seq<LogEntry>, entries: seq<LogEntry>)
    requires |logs| <= MaxLogs
    ensures PushLogs(logs, entries) == (Reverse(entries) + logs)[..Min(|entries| + |logs|, MaxLogs)]
    decreases |entries|
  {
    if entries == [] {
      assert Reverse(entries) + logs == logs;
    } else {
      var init, e := entries[..|entries| - 1], entries[|entries| - 1];
      assert entries == init + [e];
      LogsNewestFirst(logs, init);
      ReverseSnoc(init, e);
      assert Reverse(entries) + logs == [e] + (Reverse(init) + logs);
      PushOntoPrefix(e, Reverse(init) + logs, Min(|init| + |logs|, MaxLogs), Min(|entries| + |logs|, MaxLogs));
    }
  }

  /** Once 50 entries have been added, none of the earlier ones is left. */
  lemma OldEntriesDropped(logs: seq<LogEntry>, entries: seq<LogEntry>)
    requires |logs| <= MaxLogs && |entries| >= MaxLogs
    ensures PushLogs(logs, entries) == Reverse(entries)[..MaxLogs]
  {
    LogsNewestFirst(logs, entries);
    assert (Reverse(entries) + logs)[..MaxLogs] == Reverse(entries)[..MaxLogs];
  }

  /** `!userId.trim()` holds exactly when every character is white space. */
  lemma BlankIffAllWhitespace(s: string)
    ensures Blank(s) <==> forall i :: 0 <= i < |s| ==> IsJsWhitespace(s[i])
  {
    var t := TrimStart(s);
    if Blank(s) {
      forall i | 0 <= i < |s|
        ensures IsJsWhitespace(s[i])
      {
        if i >= |s| - |t| {
          assert s[i] == t[i - (|s| - |t|)];
        }
      }
    } else {
      assert t != [] && !IsJsWhitespace(t[0]);
      assert s[|s| - |t|] == t[0];
    }
  }

  /** Trimming a trimmed string changes nothing. */
  lemma TrimIdempotent(s: string)
    ensures Trim(Trim(s)) == Trim(s)
  {
    var t := Trim(s);
    assert t == [] || (!IsJsWhitespace(t[0]) && !IsJsWhitespace(t[|t| - 1])) by {
      var u := TrimStart(s);
      if t != [] {
        assert t[0] == u[0];
      }
    }
  }

  /** Stamping the user id keeps the merge's dates and order. */
  lemma StampKeepsOrder(rs: seq<DailyRecord>, userId: string)
    requires NewestFirst(rs)
    ensures NewestFirst(StampUserId(rs, userId))
    ensures DateSet(StampUserId(rs, userId)) == DateSet(rs)
  {
    var r := StampUserId(rs, userId);
    assert forall i :: 0 <= i < |r| ==> r[i].recordDate == rs[i].recordDate;
  }

  /** Exactly a probe that timed out arms a retry; any other probe arms none. */
  lemma RetryOnlyAfterTimeout(attempt: ProbeAttempt)
    ensures RetriesArmed(attempt) == 1 <==> attempt == Completed(Failed(TimeoutCode))
    ensures RetriesArmed(attempt) == 0 <==> attempt != Completed(Failed(TimeoutCode))
  {
  }

  /** A probe that throws shows `error`, and only such a probe does. */
  lemma ErrorOnlyWhenProbeThrows(attempt: ProbeAttempt)
    ensures StatusAfterProbe(attempt).status == Error <==> attempt.Threw?
  {
  }

  /** Each state has its colour; `offline` and `error` share red. */
  lemma StatusColours(status: Availability)
    ensures ServerStatusColor(status) == "#34C759" <==> status == Online
    ensures ServerStatusColor(status) == "#FF9500" <==> status == Starting
    ensures ServerStatusColor(status) == "#007AFF" <==> status == Checking
    ensures ServerStatusColor(status) == "#FF3B30" <==> status == Offline || status == Error
  {
  }

  /** When every submission succeeds, every record is counted. */
  lemma {:induction false} AllAccepted(accepted: nat -> bool, n: nat)
    requires forall i: nat :: i < n ==> accepted(i)
    ensures CountAccepted(accepted, n) == n
  {
    if n > 0 {
      AllAccepted(accepted, n - 1);
    }
  }

  /** When every submission fails, nothing is counted. */
  lemma {:induction false} NoneAccepted(accepted: nat -> bool, n: nat)
    requires forall i: nat :: i < n ==> !accepted(i)
    ensures CountAccepted(accepted, n) == 0
  {
    if n > 0 {
      NoneAccepted(accepted, n - 1);
    }
  }

  /** A failed submission does not stop the loop: three records with the second failing count two. */
  lemma FailureInTheMiddle()
    ensures CountAccepted(i => i != 1, 3) == 2
  {
  }

  lemma PushLogsTwo(logs: seq<LogEntry>, a: LogEntry, b: LogEntry)
    ensures PushLogs(logs, [a, b]) == PushLog(PushLog(logs, a), b)
  {
    assert [a, b][..1] == [a];
    assert [a][..0] == [];
    assert PushLogs(logs, [a]) == PushLog(logs, a);
  }

  lemma PushLogsThree(logs: seq<LogEntry>, a: LogEntry, b: LogEntry, c: LogEntry)
    ensures PushLogs(logs, [a, b, c]) == PushLog(PushLog(PushLog(logs, a), b), c)
  {
    assert [a, b, c][..2] == [a, b];
    PushLogsTwo(logs, a, b);
  }

  /** The probe handler's `addLog` calls push `ProbeLogEntries` in order. */
  lemma ProbePushed(logs: seq<LogEntry>, attempt: ProbeAttempt, now: string)
    ensures var entries := ProbeLogEntries(attempt, now);
      PushLogs(logs, entries) ==
        if |entries| == 3 then PushLog(PushLog(PushLog(logs, entries[0]), entries[1]), entries[2])
        else PushLog(PushLog(logs, entries[0]), entries[1])
  {
    var entries := ProbeLogEntries(attempt, now);
    if |entries| == 3 {
      PushLogsThree(logs, entries[0], entries[1], entries[2]);
    } else {
      PushLogsTwo(logs, entries[0], entries[1]);
    }
  }
}
