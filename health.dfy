/**
 * The health monitor (`ServerHealth`): a bounded log of recent requests and
 * of recent errors, a consecutive-error counter with automatic recovery
 * after five failures in a row (at most three recoveries per monitor), and a
 * status derived in a fixed priority order.
 *
 * `Monitor` is the value of the monitor's fields; `Record` and `Recover`
 * say what `record_request` and `trigger_recovery` do to it, and the class
 * `ServerHealth` updates its fields in place and is proved to follow them.
 */
module Health {
  import opened Common

  const MaxRequests: nat := 100
  const MaxErrors: nat := 50
  const MaxConsecutiveErrors: nat := 5
  const MaxRecoveryAttempts: nat := 3
  const ErrorThresholdRate: real := 0.1
  const DegradedAt: nat := 3
  const WindowSeconds: real := 300.0

  datatype RequestRecord = RequestRecord(timestamp: real, success: bool)
  datatype ErrorRecord = ErrorRecord(timestamp: real, error: Option<string>)

  datatype Status = Healthy | Warning | Degraded | Recovering

  /** The fields of a `ServerHealth` object, as a value. */
  datatype Monitor = Monitor(
    startTime: real,
    lastHeartbeat: real,
    consecutiveErrors: nat,
    recoveryAttempts: nat,
    recentRequests: seq<RequestRecord>,
    recentErrors: seq<ErrorRecord>)

  /** The monitor's invariant: both logs within their capacity, recoveries within their budget. */
  predicate Bounded(m: Monitor) {
    |m.recentRequests| <= MaxRequests && |m.recentErrors| <= MaxErrors
    && m.recoveryAttempts <= MaxRecoveryAttempts
  }

  /** A monitor created at time `now`. */
  function Fresh(now: real): (m: Monitor)
    ensures Bounded(m)
  {
    Monitor(now, now, 0, 0, [], [])
  }

  /** The last `n` elements of `s` (all of them when there are fewer). */
  function KeepLast<T>(s: seq<T>, n: nat): (r: seq<T>)
    ensures |r| == if |s| <= n then |s| else n
    ensures r == s[|s| - |r|..]
  {
    if |s| <= n then s else s[|s| - n..]
  }

  /** `trigger_recovery()`: its answer and the monitor afterwards. */
  function Recover(m: Monitor): (r: (bool, Monitor))
    ensures r.0 <==> m.recoveryAttempts < MaxRecoveryAttempts
    ensures !r.0 ==> r.1 == m
    ensures r.0 ==> r.1 == m.(recoveryAttempts := m.recoveryAttempts + 1, consecutiveErrors := 0)
  {
    if m.recoveryAttempts >= MaxRecoveryAttempts then (false, m)
    else (true, m.(recoveryAttempts := m.recoveryAttempts + 1, consecutiveErrors := 0))
  }

  /**
   * Appending to a log of capacity `cap` and evicting the oldest entry when
   * the capacity is exceeded keeps exactly the last `cap` entries.
   */
  function Push<T>(log: seq<T>, x: T, cap: nat): (r: seq<T>)
    requires cap > 0
    ensures |log| <= cap ==> r == KeepLast(log + [x], cap) && |r| <= cap
    ensures |r| > 0 && r[|r| - 1] == x
  {
    var grown := log + [x];
    if |grown| > cap then grown[1..] else grown
  }

  /** The monitor after a failure has been counted and logged, before any recovery. */
  function Failed(m: Monitor, errorMsg: Option<string>, now: real): Monitor {
    m.(recentRequests := Push(m.recentRequests, RequestRecord(now, false), MaxRequests),
       recentErrors := Push(m.recentErrors, ErrorRecord(now, errorMsg), MaxErrors),
       consecutiveErrors := m.consecutiveErrors + 1)
  }

  /** `record_request(success, error_msg)` at time `now`. */
  function Record(m: Monitor, success: bool, errorMsg: Option<string>, now: real): (r: Monitor)
    // both logs keep their most recent entries, the newest last
    ensures Bounded(m) ==> r.recentRequests == KeepLast(m.recentRequests + [RequestRecord(now, success)], MaxRequests)
    ensures success ==> r.recentErrors == m.recentErrors
    ensures !success && Bounded(m) ==> r.recentErrors == KeepLast(m.recentErrors + [ErrorRecord(now, errorMsg)], MaxErrors)
    // a success clears the counter; a failure adds one, unless it is the fifth in a row and a recovery is left
    ensures success ==> r.consecutiveErrors == 0 && r.recoveryAttempts == m.recoveryAttempts
    ensures (!success && m.consecutiveErrors + 1 >= MaxConsecutiveErrors
             && m.recoveryAttempts < MaxRecoveryAttempts)
            ==> r.consecutiveErrors == 0 && r.recoveryAttempts == m.recoveryAttempts + 1
    ensures (!success && (m.consecutiveErrors + 1 < MaxConsecutiveErrors
                          || m.recoveryAttempts >= MaxRecoveryAttempts))
            ==> r.consecutiveErrors == m.consecutiveErrors + 1 && r.recoveryAttempts == m.recoveryAttempts
    ensures r.lastHeartbeat == now && r.startTime == m.startTime
    ensures Bounded(m) ==> Bounded(r)
  {
    if success then
      m.(recentRequests := Push(m.recentRequests, RequestRecord(now, true), MaxRequests),
         consecutiveErrors := 0, lastHeartbeat := now)
    else
      var failed := Failed(m, errorMsg, now);
      var after := if failed.consecutiveErrors >= MaxConsecutiveErrors then Recover(failed).1 else failed;
      after.(lastHeartbeat := now)
  }

  /** One call of `record_request`. */
  datatype Call = Call(success: bool, errorMsg: Option<string>, now: real)

  /** A sequence of `record_request` calls, oldest first. */
  function RecordAll(m: Monitor, calls: seq<Call>): Monitor
    decreases |calls|
  {
    if |calls| == 0 then m
    else RecordAll(Record(m, calls[0].success, calls[0].errorMsg, calls[0].now), calls[1..])
  }

  /** The request records a sequence of calls produces, in arrival order. */
  function RequestsOf(calls: seq<Call>): (rs: seq<RequestRecord>)
    ensures |rs| == |calls|
  {
    if |calls| == 0 then [] else [RequestRecord(calls[0].now, calls[0].success)] + RequestsOf(calls[1..])
  }

  /** The records newer than `cutoff` (timestamp strictly greater). */
  function Recent(rs: seq<RequestRecord>, cutoff: real): (r: seq<RequestRecord>)
    ensures |r| <= |rs|
    ensures forall k :: 0 <= k < |r| ==> r[k].timestamp > cutoff
  {
    if |rs| == 0 then []
    else (if rs[0].timestamp > cutoff then [rs[0]] else []) + Recent(rs[1..], cutoff)
  }

  function Failures(rs: seq<RequestRecord>): (n: nat)
    ensures n <= |rs|
  {
    if |rs| == 0 then 0 else (if rs[0].success then 0 else 1) + Failures(rs[1..])
  }

  /** `error_rate_5min`: failures over total among the records of the last 300 seconds, 0.0 when there are none. */
  function ErrorRate(rs: seq<RequestRecord>, now: real): (rate: real)
    ensures 0.0 <= rate <= 1.0
    ensures Failures(Recent(rs, now - WindowSeconds)) == 0 ==> rate == 0.0
    ensures var recent := Recent(rs, now - WindowSeconds);
      |recent| > 0 && Failures(recent) == |recent| ==> rate == 1.0
  {
    var recent := Recent(rs, now - WindowSeconds);
    if |recent| == 0 then 0.0
    else
      var f, n := Failures(recent) as real, |recent| as real;
      FractionInUnit(f, n);
      f / n
  }

  /** A part over a positive whole is a fraction in [0, 1]. */
  lemma FractionInUnit(part: real, whole: real)
    requires 0.0 <= part <= whole && whole > 0.0
    ensures 0.0 <= part / whole <= 1.0
  {
    assert part / whole * whole == part;
  }

  /** The status rule: degraded, then warning, then recovering, then healthy. */
  function StatusOf(consecutiveErrors: nat, errorRate: real, recoveryAttempts: nat): (s: Status)
    ensures s == Degraded <==> consecutiveErrors >= DegradedAt
    ensures s == Warning <==> consecutiveErrors < DegradedAt && errorRate > ErrorThresholdRate
    ensures s == Recovering <==> consecutiveErrors < DegradedAt && errorRate <= ErrorThresholdRate
                                 && recoveryAttempts > 0
    ensures s == Healthy <==> consecutiveErrors < DegradedAt && errorRate <= ErrorThresholdRate
                              && recoveryAttempts == 0
  {
    if consecutiveErrors >= DegradedAt then Degraded
    else if errorRate > ErrorThresholdRate then Warning
    else if recoveryAttempts > 0 then Recovering
    else Healthy
  }

  /** What `get_health_status` reports. */
  datatype HealthReport = HealthReport(
    status: Status,
    uptimeSeconds: real,
    consecutiveErrors: nat,
    errorRate5min: real,
    recoveryAttempts: nat,
    totalRequests: nat,
    recentErrors: nat,
    lastHeartbeat: real)

  function Report(m: Monitor, now: real): (r: HealthReport)
    ensures r.status == StatusOf(m.consecutiveErrors, r.errorRate5min, m.recoveryAttempts)
    ensures 0.0 <= r.errorRate5min <= 1.0
    ensures Bounded(m) ==> r.totalRequests <= MaxRequests && r.recentErrors <= MaxErrors
  {
    var rate := ErrorRate(m.recentRequests, now);
    HealthReport(StatusOf(m.consecutiveErrors, rate, m.recoveryAttempts), now - m.startTime,
                 m.consecutiveErrors, rate, m.recoveryAttempts,
                 |m.recentRequests|, |m.recentErrors|, m.lastHeartbeat)
  }

  // ---------------------------------------------------------------------------
  // Properties over sequences of calls

  lemma KeepLastAppend<T>(s: seq<T>, x: T, n: nat)
    requires n > 0
    ensures KeepLast(KeepLast(s, n) + [x], n) == KeepLast(s + [x], n)
  {
    var k := KeepLast(s, n);
    if |s| > n {
      assert (s + [x])[|s| + 1 - n..] == s[|s| + 1 - n..] + [x];
      assert (k + [x])[1..] == k[1..] + [x];
      assert k[1..] == s[|s| + 1 - n..];
    }
  }

  /** Keeping the last `cap` after one append: the newest entry last, behind the last `cap - 1` of the old log. */
  lemma KeepLastSnoc<T>(log: seq<T>, x: T, cap: nat)
    requires cap > 0
    ensures var r := KeepLast(log + [x], cap);
      |r| == Min(|log| + 1, cap) && r[|r| - 1] == x && r[..|r| - 1] == KeepLast(log, cap - 1)
  {
    var r := KeepLast(log + [x], cap);
    assert r[..|r| - 1] == (log + [x])[|log| + 1 - |r|..|log|];
    assert (log + [x])[|log| + 1 - |r|..|log|] == log[|log| + 1 - |r|..];
  }

  /** The request log always holds the most recent (at most 100) records, oldest first. */
  lemma {:induction false} WindowHoldsMostRecent(m: Monitor, calls: seq<Call>)
    requires Bounded(m)
    ensures RecordAll(m, calls).recentRequests == KeepLast(m.recentRequests + RequestsOf(calls), MaxRequests)
    decreases |calls|
  {
    if |calls| == 0 {
      assert m.recentRequests + RequestsOf(calls) == m.recentRequests;
    } else {
      var m1, grown := RecordFirst(m, calls);
      FirstRequest(m, calls, grown);
      WindowHoldsMostRecent(m1, calls[1..]);
      KeepLastConcat(grown, RequestsOf(calls[1..]), MaxRequests);
    }
  }

  /** One step of `WindowHoldsMostRecent`: the monitor after the first call, and the log it started from. */
  lemma RecordFirst(m: Monitor, calls: seq<Call>) returns (m1: Monitor, grown: seq<RequestRecord>)
    requires Bounded(m) && |calls| > 0
    ensures Bounded(m1) && RecordAll(m, calls) == RecordAll(m1, calls[1..])
    ensures grown == m.recentRequests + [RequestRecord(calls[0].now, calls[0].success)]
    ensures m1.recentRequests == KeepLast(grown, MaxRequests)
  {
    var c := calls[0];
    grown := m.recentRequests + [RequestRecord(c.now, c.success)];
    m1 := Record(m, c.success, c.errorMsg, c.now);
  }

  /** The records of a sequence of calls are those of its first call followed by those of the rest. */
  lemma {:induction false} FirstRequest(m: Monitor, calls: seq<Call>, grown: seq<RequestRecord>)
    requires |calls| > 0 && grown == m.recentRequests + [RequestRecord(calls[0].now, calls[0].success)]
    ensures m.recentRequests + RequestsOf(calls) == grown + RequestsOf(calls[1..])
  {
    var x := RequestRecord(calls[0].now, calls[0].success);
    var rest := RequestsOf(calls[1..]);
    assert RequestsOf(calls) == [x] + rest;
    assert m.recentRequests + ([x] + rest) == grown + rest;
  }

  lemma KeepLastConcat<T>(s: seq<T>, t: seq<T>, n: nat)
    ensures KeepLast(KeepLast(s, n) + t, n) == KeepLast(s + t, n)
  {
    var k := KeepLast(s, n);
    assert k == s[|s| - |k|..];
    var a, b := KeepLast(k + t, n), KeepLast(s + t, n);
    assert |a| == |b|;
    forall i | 0 <= i < |a| ensures a[i] == b[i] {
      assert a[i] == (k + t)[|k + t| - |a| + i];
      assert b[i] == (s + t)[|s + t| - |b| + i];
    }
  }

  /** Starting from an empty request log, the log holds the last (at most 100) records of the calls. */
  lemma WindowFromEmpty(m: Monitor, calls: seq<Call>)
    requires Bounded(m) && m.recentRequests == []
    ensures RecordAll(m, calls).recentRequests == KeepLast(RequestsOf(calls), MaxRequests)
  {
    WindowHoldsMostRecent(m, calls);
    assert m.recentRequests + RequestsOf(calls) == RequestsOf(calls);
  }

  /** After 150 calls on a fresh monitor the request log holds exactly the last 100 of them. */
  lemma AfterManyRequests(now: real, calls: seq<Call>)
    requires |calls| == 150
    ensures RecordAll(Fresh(now), calls).recentRequests == RequestsOf(calls)[50..]
  {
    WindowFromEmpty(Fresh(now), calls);
  }

  /** Every sequence of calls keeps the monitor bounded; in particular no more than three recoveries ever run. */
  lemma {:induction false} AlwaysBounded(m: Monitor, calls: seq<Call>)
    requires Bounded(m)
    ensures Bounded(RecordAll(m, calls))
    ensures RecordAll(m, calls).recoveryAttempts >= m.recoveryAttempts
    decreases |calls|
  {
    if |calls| > 0 {
      AlwaysBounded(Record(m, calls[0].success, calls[0].errorMsg, calls[0].now), calls[1..]);
    }
  }

  predicate AllFailures(calls: seq<Call>) {
    forall k :: 0 <= k < |calls| ==> !calls[k].success
  }

  /** With recoveries exhausted, every further failure adds one to the counter and nothing resets it. */
  lemma {:induction false} ExhaustedKeepsClimbing(m: Monitor, calls: seq<Call>)
    requires m.recoveryAttempts >= MaxRecoveryAttempts && AllFailures(calls)
    ensures RecordAll(m, calls).consecutiveErrors == m.consecutiveErrors + |calls|
    ensures RecordAll(m, calls).recoveryAttempts == m.recoveryAttempts
    decreases |calls|
  {
    if |calls| > 0 {
      var m1 := Record(m, false, calls[0].errorMsg, calls[0].now);
      ExhaustedKeepsClimbing(m1, calls[1..]);
    }
  }

  /**
   * The counters after a run of failures, in closed form: starting below the
   * threshold with recoveries left, every fifth failure runs one recovery and
   * resets the counter, until the three attempts are spent; from then on the
   * counter only climbs.
   */
  lemma {:induction false} FailureRun(m: Monitor, calls: seq<Call>)
    requires m.consecutiveErrors < MaxConsecutiveErrors && m.recoveryAttempts <= MaxRecoveryAttempts
    requires AllFailures(calls)
    ensures var t := m.consecutiveErrors + |calls|;
      var spent := MaxRecoveryAttempts - m.recoveryAttempts;
      var r := RecordAll(m, calls);
      if t / 5 <= spent then
        r.recoveryAttempts == m.recoveryAttempts + t / 5 && r.consecutiveErrors == t % 5
      else
        r.recoveryAttempts == MaxRecoveryAttempts && r.consecutiveErrors == t - 5 * spent
    decreases |calls|
  {
    var c := m.consecutiveErrors;
    var t := c + |calls|;
    if |calls| == 0 {
    } else if m.recoveryAttempts == MaxRecoveryAttempts {
      ExhaustedKeepsClimbing(m, calls);
    } else {
      var m1 := Record(m, false, calls[0].errorMsg, calls[0].now);
      assert RecordAll(m, calls) == RecordAll(m1, calls[1..]);
      assert AllFailures(calls[1..]);
      if c + 1 < MaxConsecutiveErrors {
        FailureRun(m1, calls[1..]);
      } else {
        assert m1.consecutiveErrors == 0 && m1.recoveryAttempts == m.recoveryAttempts + 1;
        assert t / 5 == 1 + (|calls| - 1) / 5 && t % 5 == (|calls| - 1) % 5;
        if m1.recoveryAttempts == MaxRecoveryAttempts {
          ExhaustedKeepsClimbing(m1, calls[1..]);
        } else {
          FailureRun(m1, calls[1..]);
        }
      }
    }
  }

  /**
   * Five failures in a row from a cleared counter run exactly one recovery,
   * on the fifth: after four the counter reads 4 and nothing has run; after
   * the fifth the counter reads 0 and one more attempt is spent.
   */
  lemma FifthFailureRecovers(m: Monitor, calls: seq<Call>)
    requires m.consecutiveErrors == 0 && m.recoveryAttempts < MaxRecoveryAttempts
    requires |calls| == 5 && AllFailures(calls)
    ensures RecordAll(m, calls[..4]).consecutiveErrors == 4
    ensures RecordAll(m, calls[..4]).recoveryAttempts == m.recoveryAttempts
    ensures RecordAll(m, calls).consecutiveErrors == 0
    ensures RecordAll(m, calls).recoveryAttempts == m.recoveryAttempts + 1
  {
    assert AllFailures(calls[..4]);
    FailureRun(m, calls[..4]);
    FailureRun(m, calls);
  }

  /**
   * Because the recovery resets the counter, the status read right after the
   * fifth failure is not `degraded`: it is `warning` if the recent error rate
   * is above 10%, `recovering` otherwise.
   */
  lemma StatusAfterRecovery(m: Monitor, calls: seq<Call>, now: real)
    requires m.consecutiveErrors == 0 && m.recoveryAttempts < MaxRecoveryAttempts
    requires |calls| == 5 && AllFailures(calls)
    ensures var s := Report(RecordAll(m, calls), now).status;
      s == Warning || s == Recovering
  {
    FifthFailureRecovers(m, calls);
  }

  // ---------------------------------------------------------------------------
  // The monitor object

  class ServerHealth {
    var startTime: real
    var lastHeartbeat: real
    var consecutiveErrors: nat
    var recoveryAttempts: nat
    var recentRequests: seq<RequestRecord>
    var recentErrors: seq<ErrorRecord>

    function Snapshot(): Monitor
      reads this
    {
      Monitor(startTime, lastHeartbeat, consecutiveErrors, recoveryAttempts, recentRequests, recentErrors)
    }

    predicate Valid()
      reads this
    {
      Bounded(Snapshot())
    }

    constructor (now: real)
      ensures Valid() && Snapshot() == Fresh(now)
    {
      startTime, lastHeartbeat := now, now;
      consecutiveErrors, recoveryAttempts := 0, 0;
      recentRequests, recentErrors := [], [];
    }

    method TriggerRecovery() returns (ok: bool)
      requires Valid()
      modifies this
      ensures Valid()
      ensures (ok, Snapshot()) == Recover(old(Snapshot()))
    {
      if recoveryAttempts >= MaxRecoveryAttempts {
        return false;
      }
      recoveryAttempts := recoveryAttempts + 1;
      consecutiveErrors := 0;
      ok := true;
    }

    method RecordRequest(success: bool, errorMsg: Option<string>, now: real)
      requires Valid()
      modifies this
      ensures Valid()
      ensures Snapshot() == Record(old(Snapshot()), success, errorMsg, now)
    {
      ghost var s0 := Snapshot();
      LogRequest(RequestRecord(now, success));
      if !success {
        consecutiveErrors := consecutiveErrors + 1;
        LogError(ErrorRecord(now, errorMsg));
        assert Snapshot() == Failed(s0, errorMsg, now);
        if consecutiveErrors >= MaxConsecutiveErrors {
          var _ := TriggerRecovery();
        }
      } else {
        consecutiveErrors := 0;
      }
      lastHeartbeat := now;
    }

    /** Appends to the request log, dropping its oldest entry beyond 100. */
    method LogRequest(x: RequestRecord)
      requires Valid()
      modifies this
      ensures Valid()
      ensures Snapshot() == old(Snapshot()).(recentRequests := Push(old(recentRequests), x, MaxRequests))
    {
      recentRequests := recentRequests + [x];
      if |recentRequests| > MaxRequests {
        recentRequests := recentRequests[1..];
      }
    }

    /** Appends to the error log, dropping its oldest entry beyond 50. */
    method LogError(x: ErrorRecord)
      requires Valid()
      modifies this
      ensures Valid()
      ensures Snapshot() == old(Snapshot()).(recentErrors := Push(old(recentErrors), x, MaxErrors))
    {
      recentErrors := recentErrors + [x];
      if |recentErrors| > MaxErrors {
        recentErrors := recentErrors[1..];
      }
    }

    /** `get_health_status()` at time `now`. */
    function GetHealthStatus(now: real): (r: HealthReport)
      reads this
      requires Valid()
      ensures r.totalRequests <= MaxRequests && r.recentErrors <= MaxErrors
      ensures r.status == StatusOf(consecutiveErrors, r.errorRate5min, recoveryAttempts)
    {
      Report(Snapshot(), now)
    }
  }
}
