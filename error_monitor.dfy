/**
 * `ErrorMonitor`: a newest-first log of search errors capped at 100 entries,
 * and the statistics over the last hour. The static log is the field of one
 * object; `Date.now()` is an explicit `now` parameter and the console output
 * is left out.
 */
module ErrorMonitor {
  import Text
  import Sorting

  const MaxLogs: nat := 100

  /** One hour in milliseconds. */
  const Hour: int := 3600000

  /** An entry: when it was logged, the error's message and the caller's context (kept as text). */
  datatype ErrorLog = ErrorLog(timestamp: int, error: string, context: string)

  datatype ErrorStats = ErrorStats(total: nat, lastHour: nat, rateLimitErrors: nat, apiErrors: nat)

  /** The log after `unshift(e)` and, when it then holds more than `MAX_LOGS` entries, `pop()`. */
  function Logged(logs: seq<ErrorLog>, e: ErrorLog): (r: seq<ErrorLog>)
    ensures |r| > 0 && r[0] == e
    ensures |logs| < MaxLogs ==> r == [e] + logs
    ensures |logs| >= MaxLogs ==> r == [e] + logs[..|logs| - 1]
  {
    var grown := [e] + logs;
    if |grown| > MaxLogs then
      assert grown[..|grown| - 1] == [e] + logs[..|logs| - 1];
      grown[..|grown| - 1]
    else grown
  }

  /** The test `now - log.timestamp < 3600000`. */
  function WithinHourOf(now: int): ErrorLog -> bool {
    (e: ErrorLog) => now - e.timestamp < Hour
  }

  /** The test `log.error.includes(part)`. */
  function Mentions(part: string): ErrorLog -> bool {
    (e: ErrorLog) => Text.Contains(e.error, part)
  }

  /** Entries logged less than an hour before `now` (strictly), in log order and with their repeats. */
  function Recent(logs: seq<ErrorLog>, now: int): (r: seq<ErrorLog>)
    ensures r == Sorting.Keep(logs, WithinHourOf(now))
    ensures |r| <= |logs|
    ensures forall e :: e in r <==> e in logs && now - e.timestamp < Hour
  {
    if logs == [] then []
    else (if now - logs[0].timestamp < Hour then [logs[0]] else []) + Recent(logs[1..], now)
  }

  /** Entries whose message contains `part` (case-sensitively), in log order and with their repeats. */
  function Mentioning(logs: seq<ErrorLog>, part: string): (r: seq<ErrorLog>)
    ensures r == Sorting.Keep(logs, Mentions(part))
    ensures |r| <= |logs|
    ensures forall e :: e in r <==> e in logs && Text.Contains(e.error, part)
  {
    if logs == [] then []
    else (if Text.Contains(logs[0].error, part) then [logs[0]] else []) + Mentioning(logs[1..], part)
  }

  class Monitor {
    var logs: seq<ErrorLog>

    ghost predicate Valid()
      reads this
    {
      |logs| <= MaxLogs
    }

    constructor ()
      ensures Valid() && logs == []
    {
      logs := [];
    }

    /** `logError(error, context)` at time `now`. */
    method LogError(message: string, context: string, now: int)
      requires Valid()
      modifies this
      ensures Valid()
      ensures logs == Logged(old(logs), ErrorLog(now, message, context))
    {
      logs := [ErrorLog(now, message, context)] + logs;
      if |logs| > MaxLogs {
        logs := logs[..|logs| - 1];
      }
    }

    /** `getErrorStats()` at time `now`. */
    function GetErrorStats(now: int): (s: ErrorStats)
      reads this
      ensures s.total == |logs|
      ensures s.lastHour == |Recent(logs, now)|
      ensures s.rateLimitErrors == |Mentioning(Recent(logs, now), "rate limit")|
      ensures s.apiErrors == |Mentioning(Recent(logs, now), "API")|
      ensures s.rateLimitErrors <= s.lastHour && s.apiErrors <= s.lastHour
    {
      var lastHour := Recent(logs, now);
      ErrorStats(|logs|, |lastHour|, |Mentioning(lastHour, "rate limit")|, |Mentioning(lastHour, "API")|)
    }
  }

  // ---------------------------------------------------------------- what the log promises

  /** The log never grows past the cap, the new entry comes first, and the survivors keep their order after it. */
  lemma LoggedShape(logs: seq<ErrorLog>, e: ErrorLog)
    requires |logs| <= MaxLogs
    ensures var r := Logged(logs, e);
            |r| == (if |logs| < MaxLogs then |logs| + 1 else MaxLogs)
            && r[0] == e
            && r[1..] == logs[..|r| - 1]
  {
  }

  /** Logging the entries one after another. */
  function LogAll(logs: seq<ErrorLog>, es: seq<ErrorLog>): seq<ErrorLog> {
    if es == [] then logs else Logged(LogAll(logs, es[..|es| - 1]), es[|es| - 1])
  }

  /** After `n` entries are logged into an empty log, it holds `min(n, 100)` of them, newest first. */
  lemma {:induction false} LoggedAll(es: seq<ErrorLog>)
    ensures |LogAll([], es)| == if |es| < MaxLogs then |es| else MaxLogs
    ensures forall k :: 0 <= k < |LogAll([], es)| ==> LogAll([], es)[k] == es[|es| - 1 - k]
  {
    if es != [] {
      var init := es[..|es| - 1];
      LoggedAll(init);
      var before := LogAll([], init);
      var r := LogAll([], es);
      assert r == Logged(before, es[|es| - 1]);
      forall k | 0 <= k < |r|
        ensures r[k] == es[|es| - 1 - k]
      {
        if k > 0 {
          assert r[k] == before[k - 1];
          assert init[|init| - 1 - (k - 1)] == es[|es| - 1 - k];
        }
      }
    }
  }

  /** An error logged at `now` counts in that instant's last-hour statistics; one logged an hour or more ago does not. */
  lemma StatsWindow(logs: seq<ErrorLog>, e: ErrorLog, now: int)
    ensures now - e.timestamp < Hour && e in logs ==> e in Recent(logs, now)
    ensures now - e.timestamp >= Hour ==> e !in Recent(logs, now)
  {
  }
}
