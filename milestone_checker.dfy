/**
 * The client-side milestone checker: on a visit it calls the milestone
 * check at most once every two hours, remembering the time of the last
 * successful call and the last five results in the browser's storage.
 */
module MilestoneChecker {
  import opened Wrappers
  import opened Text

  /** `TWO_HOURS`, in milliseconds. */
  const TwoHours: int := 7200000

  /** One entry of `milestoneCheckLogs`. */
  datatype CheckLog = CheckLog(timestamp: string, success: Option<bool>, milestonesFound: nat, platformsChecked: nat)

  /**
   * The parts of the check's JSON answer the log reads: `success`, and the
   * lengths of `notifications` and `stats` (None when absent or not arrays).
   */
  datatype CheckData = CheckData(success: Option<bool>, notifications: Option<nat>, stats: Option<nat>)

  /** The outcome of the fetch: it threw (or its body did not parse), it was not ok, or it was ok. */
  datatype Outcome = Threw | NotOk(status: int) | Ok(data: CheckData)

  /**
   * The throttle: skip when a last-check time is stored, is not empty, parses
   * as a number, and is less than two hours old. A value that does not parse
   * (NaN) never throttles.
   */
  function Throttled(lastCheck: Option<string>, now: int): (b: bool)
    ensures b <==> (
      && lastCheck.Some? && lastCheck.value != "" && JsParseInt(lastCheck.value).Some?
      && now - JsParseInt(lastCheck.value).value < TwoHours)
  {
    match lastCheck
    case None => false
    case Some(s) =>
      if s == "" then false
      else match JsParseInt(s)
        case None => false
        case Some(t) => now - t < TwoHours
  }

  /** `x?.length || 0`. */
  function LengthOr0(n: Option<nat>): nat {
    match n
    case None => 0
    case Some(k) => k
  }

  function LogOf(timestamp: string, data: CheckData): (e: CheckLog)
    ensures data.notifications.None? ==> e.milestonesFound == 0
    ensures data.stats.None? ==> e.platformsChecked == 0
    ensures data.notifications.Some? ==> e.milestonesFound == data.notifications.value
    ensures data.stats.Some? ==> e.platformsChecked == data.stats.value
  {
    CheckLog(timestamp, data.success, LengthOr0(data.notifications), LengthOr0(data.stats))
  }

  /** `logs.unshift(entry); logs.slice(0, 5)`. */
  function Pushed(entry: CheckLog, logs: seq<CheckLog>): (r: seq<CheckLog>)
    ensures |r| == if |logs| < 5 then |logs| + 1 else 5
    ensures r[0] == entry
    ensures forall i :: 0 <= i < |r| - 1 ==> r[i + 1] == logs[i]
  {
    var all := [entry] + logs;
    if |all| <= 5 then all else all[..5]
  }

  /** The newest five entries across a run of checks: pushing keeps the list bounded and newest first. */
  lemma PushedTwice(a: CheckLog, b: CheckLog, logs: seq<CheckLog>)
    ensures var r := Pushed(b, Pushed(a, logs));
      r[0] == b && r[1] == a && |r| <= 5
      && forall i :: 0 <= i < |r| - 2 ==> r[i + 2] == logs[i]
  {
    var p := Pushed(a, logs);
    var r := Pushed(b, p);
    assert |p| >= 1;
    forall i | 0 <= i < |r| - 2 ensures r[i + 2] == logs[i] {
      assert r[i + 2] == p[i + 1];
    }
  }

  /** The browser's local storage, as far as the checker uses it. */
  class BrowserStorage {
    /** `lastMilestoneCheck`. */
    var lastCheck: Option<string>
    /** `milestoneCheckLogs`, None when its text is not a JSON array (then it is left alone). */
    var logs: Option<seq<CheckLog>>

    constructor (last: Option<string>, saved: Option<seq<CheckLog>>)
      ensures lastCheck == last && logs == saved
    {
      lastCheck := last;
      logs := saved;
    }

    /**
     * One run of `checkMilestones` at `now`; `timestamp` is the ISO time of
     * the log entry and `outcome` what the fetch gives. Returns whether the
     * check was called.
     */
    method Check(now: int, timestamp: string, outcome: Outcome) returns (called: bool)
      modifies this
      ensures called <==> !old(Throttled(lastCheck, now))
      ensures called && outcome.Ok? ==>
        && lastCheck == Some(IntToString(now))
        && logs == (if old(logs).Some? then Some(Pushed(LogOf(timestamp, outcome.data), old(logs).value)) else old(logs))
      ensures !(called && outcome.Ok?) ==> lastCheck == old(lastCheck) && logs == old(logs)
    {
      if Throttled(lastCheck, now) {
        return false;
      }
      called := true;
      match outcome
      case Threw =>
      case NotOk(_) =>
      case Ok(data) =>
        lastCheck := Some(IntToString(now));
        var checkLog := LogOf(timestamp, data);
        if logs.Some? {
          logs := Some(Pushed(checkLog, logs.value));
        }
    }
  }

  /**
   * After a successful check at `t`, a visit at `now` skips exactly while
   * less than two hours have passed: the stored time reads back as `t`.
   */
  lemma ThrottleAfterSuccess(t: int, now: int)
    ensures Throttled(Some(IntToString(t)), now) <==> now - t < TwoHours
  {
    JsParseIntOfIntToString(t);
  }

  /**
   * The throttle only ever lifts with time: a visit that was not throttled
   * stays unthrottled at any later visit until a new time is stored, and
   * `Check` stores one only after a successful answer; so after a failed
   * call the next visit calls again.
   */
  lemma FailureRetries(lastCheck: Option<string>, now: int, later: int)
    requires !Throttled(lastCheck, now) && later >= now
    ensures !Throttled(lastCheck, later)
  {
  }
}
