/**
 * The request queue shared by MetaAnalyticsService and MetaApiService
 * (`makeRequest`): every call is chained onto one queue, so fetches run one
 * at a time in submission order; a success waits `requestDelay` before it
 * resolves; a failure whose code is 4 or 17 is retried with one retry fewer
 * after twice that delay; any other failure, or one with no retries left,
 * rejects at once.
 *
 * The network is a scripted transport: `script(k)` is the answer to the k-th
 * fetch the queue issues. Timers advance a ghost clock; a fetch itself takes
 * no time on it.
 */
module RequestQueue {
  import opened Wrappers

  /** The `error` member of a Graph API response body. */
  datatype ApiError = ApiError(message: Option<string>, code: Option<int>)

  /** What one fetch produced: a response (status ok or not, with its parsed body), or a thrown error. */
  datatype Answer =
    | Reply(ok: bool, error: Option<ApiError>, data: string)
    | Thrown(reason: string)

  /** The error a failed attempt throws: its message and the body's code, if any. */
  datatype Failure = Failure(message: string, code: Option<int>)

  datatype Attempt = Succeeded(data: string) | Failed(failure: Failure)

  /** How the caller's promise settles. */
  datatype Settled = Resolved(data: string) | Rejected(failure: Failure)

  /**
   * Reading one answer: a non-ok status or an `error` body is a failure
   * carrying the body's code and message ('API request failed' without one);
   * a thrown fetch or JSON parse carries no code.
   */
  function Classify(a: Answer): (r: Attempt)
    ensures r.Succeeded? <==> a.Reply? && a.ok && a.error.None?
    ensures r.Failed? && a.Reply? ==> r.failure.code == (if a.error.Some? then a.error.value.code else None)
    ensures a.Thrown? ==> r.Failed? && r.failure.code.None?
  {
    match a
    case Thrown(reason) => Failed(Failure(reason, None))
    case Reply(ok, error, data) =>
      if !ok || error.Some? then
        var message := if error.Some? && error.value.message.Some? && error.value.message.value != ""
                       then error.value.message.value else "API request failed";
        Failed(Failure(message, if error.Some? then error.value.code else None))
      else Succeeded(data)
  }

  /** Codes 4 and 17 are the Graph API's rate-limit signals. */
  predicate IsRateLimit(f: Failure) {
    f.code == Some(4) || f.code == Some(17)
  }

  /** An attempt is retried iff it failed with a rate-limit code and retries remain. */
  predicate Retries(a: Attempt, retries: nat) {
    a.Failed? && retries > 0 && IsRateLimit(a.failure)
  }

  // ------------------------------------------------------------------
  // The evidently intended behaviour: a rate-limited attempt is retried in
  // place, and the caller receives the outcome of the last attempt.

  /** The outcome of one request, how many fetches it made and how long its timers waited. */
  datatype Run = Run(outcome: Settled, attempts: nat, elapsed: nat)

  /** The attempts of one request whose first fetch is the `first`-th answer of the script. */
  function Attempts(script: nat -> Answer, first: nat, retries: nat, delay: nat): Run
    decreases retries
  {
    var a := Classify(script(first));
    if Retries(a, retries) then
      var rest := Attempts(script, first + 1, retries - 1, delay);
      Run(rest.outcome, rest.attempts + 1, 2 * delay + rest.elapsed)
    else if a.Succeeded? then Run(Resolved(a.data), 1, delay)
    else Run(Rejected(a.failure), 1, 0)
  }

  /** One retry: the run is the retried run, one fetch and one backoff longer. */
  lemma AttemptsRetry(script: nat -> Answer, first: nat, retries: nat, delay: nat)
    requires Retries(Classify(script(first)), retries)
    ensures var rest := Attempts(script, first + 1, retries - 1, delay);
            Attempts(script, first, retries, delay) == Run(rest.outcome, rest.attempts + 1, 2 * delay + rest.elapsed)
  {
  }

  /** The last fetch: a success resolves after one delay, a failure rejects at once. */
  lemma AttemptsLast(script: nat -> Answer, first: nat, retries: nat, delay: nat)
    requires !Retries(Classify(script(first)), retries)
    ensures var c := Classify(script(first));
            Attempts(script, first, retries, delay)
            == if c.Succeeded? then Run(Resolved(c.data), 1, delay) else Run(Rejected(c.failure), 1, 0)
  {
  }

  /** A request makes at least one and at most `retries + 1` fetches. */
  lemma {:induction false} AttemptsBounded(script: nat -> Answer, first: nat, retries: nat, delay: nat)
    decreases retries
    ensures 1 <= Attempts(script, first, retries, delay).attempts <= retries + 1
  {
    if Retries(Classify(script(first)), retries) {
      AttemptsBounded(script, first + 1, retries - 1, delay);
    }
  }

  /** A request that resolves has waited at least `requestDelay` after its last fetch. */
  lemma {:induction false} ResolvedAfterDelay(script: nat -> Answer, first: nat, retries: nat, delay: nat)
    decreases retries
    requires Attempts(script, first, retries, delay).outcome.Resolved?
    ensures Attempts(script, first, retries, delay).elapsed >= delay
  {
    if Retries(Classify(script(first)), retries) {
      ResolvedAfterDelay(script, first + 1, retries - 1, delay);
    }
  }

  /** The answer is a rate-limit failure. */
  predicate RateLimited(a: Answer) {
    Classify(a).Failed? && IsRateLimit(Classify(a).failure)
  }

  /**
   * Against an always rate-limited endpoint a request makes exactly
   * `retries + 1` fetches (4 with the default 3), waits `2 * delay` between
   * them, and rejects with the last rate-limit failure.
   */
  lemma {:induction false} AlwaysRateLimited(script: nat -> Answer, first: nat, retries: nat, delay: nat)
    requires forall k :: first <= k ==> RateLimited(script(k))
    decreases retries
    ensures RateLimited(script(first + retries))
    ensures Attempts(script, first, retries, delay).attempts == retries + 1
    ensures Attempts(script, first, retries, delay).elapsed == 2 * delay * retries
    ensures Attempts(script, first, retries, delay).outcome == Rejected(Classify(script(first + retries)).failure)
  {
    assert RateLimited(script(first));
    if retries > 0 {
      AlwaysRateLimited(script, first + 1, retries - 1, delay);
    }
  }

  /** One rate-limit failure followed by a success: two fetches, and the caller gets the success. */
  lemma RateLimitThenSuccess(script: nat -> Answer, first: nat, retries: nat, delay: nat)
    requires retries > 0
    requires RateLimited(script(first))
    requires Classify(script(first + 1)).Succeeded?
    ensures Attempts(script, first, retries, delay)
         == Run(Resolved(Classify(script(first + 1)).data), 2, 3 * delay)
  {
  }

  /** Any other failure is surfaced at once, after one fetch and without waiting. */
  lemma OtherFailureNotRetried(script: nat -> Answer, first: nat, retries: nat, delay: nat)
    requires Classify(script(first)).Failed? && !IsRateLimit(Classify(script(first)).failure)
    ensures Attempts(script, first, retries, delay) == Run(Rejected(Classify(script(first)).failure), 1, 0)
  {
  }

  // ------------------------------------------------------------------
  // The retry path as written: `makeRequest(url, retries - 1)` chains the
  // new attempt behind the current tail of the queue, whose settling waits
  // on the still-running task; that task returns the new attempt's promise,
  // so the running link waits on a task queued behind itself.

  datatype AsWrittenRun = Settles(outcome: Settled, elapsed: nat) | Stalls(elapsed: nat)

  /** One dequeued request as written: the retry path never settles the caller and blocks the queue. */
  function AsWrittenAttempt(a: Answer, retries: nat, delay: nat): (r: AsWrittenRun)
    ensures r.Stalls? <==> Retries(Classify(a), retries)
  {
    var c := Classify(a);
    if Retries(c, retries) then Stalls(2 * delay)
    else if c.Succeeded? then Settles(Resolved(c.data), delay)
    else Settles(Rejected(c.failure), 0)
  }

  /**
   * The two agree whenever no retry happens, and differ on the first retry:
   * a rate limit followed by a success stalls as written, while the intended
   * behaviour resolves the caller with the success.
   */
  lemma RetryStallsAsWritten(data: string, delay: nat)
    ensures var script := (k: nat) => if k == 0 then Reply(false, Some(ApiError(Some("limit"), Some(4))), "") else Reply(true, None, data);
            AsWrittenAttempt(script(0), 3, delay).Stalls?
            && Attempts(script, 0, 3, delay).outcome == Resolved(data)
  {
    var script := (k: nat) => if k == 0 then Reply(false, Some(ApiError(Some("limit"), Some(4))), "") else Reply(true, None, data);
    assert RateLimited(script(0));
    RateLimitThenSuccess(script, 0, 3, delay);
  }

  lemma AsWrittenAgreesWithoutRetry(script: nat -> Answer, first: nat, retries: nat, delay: nat)
    requires !Retries(Classify(script(first)), retries)
    ensures var r := Attempts(script, first, retries, delay);
            AsWrittenAttempt(script(first), retries, delay) == Settles(r.outcome, r.elapsed)
  {
  }

  // ------------------------------------------------------------------
  // The queue object.

  /** A submitted call: the caller's promise id and its retry budget. */
  datatype Request = Request(id: nat, retries: nat)

  /** A fetch the queue issued: for which request, when, what came back, with how many retries left. */
  datatype Start = Start(id: nat, at: int, answer: Answer, retriesLeft: nat)

  /** The least time that must pass after fetch `s` before the queue issues another. */
  function Gap(s: Start, delay: nat): nat {
    var c := Classify(s.answer);
    if c.Succeeded? then delay
    else if Retries(c, s.retriesLeft) then 2 * delay
    else 0
  }

  /** Consecutive fetches of a trace are at least the gap of the earlier one apart. */
  ghost predicate SpacedTrace(t: seq<Start>, delay: nat) {
    forall i :: 0 <= i < |t| - 1 ==> t[i + 1].at >= t[i].at + Gap(t[i], delay)
  }

  /** The fetches of a trace belong to calls in submission order, none after `id`. */
  ghost predicate OrderedUpTo(t: seq<Start>, id: nat) {
    && (forall i, j :: 0 <= i < j < |t| ==> t[i].id <= t[j].id)
    && (forall i :: 0 <= i < |t| ==> t[i].id <= id)
  }

  /** A fetch issued once the previous one's gap has passed keeps the trace spaced and ordered. */
  lemma AppendStart(t: seq<Start>, s: Start, delay: nat, id: nat)
    requires SpacedTrace(t, delay) && OrderedUpTo(t, id) && s.id == id
    requires |t| > 0 ==> s.at >= t[|t| - 1].at + Gap(t[|t| - 1], delay)
    ensures SpacedTrace(t + [s], delay) && OrderedUpTo(t + [s], id)
  {
    var u := t + [s];
    forall i | 0 <= i < |u| - 1
      ensures u[i + 1].at >= u[i].at + Gap(u[i], delay)
    {
      if i < |t| - 1 {
        assert u[i] == t[i] && u[i + 1] == t[i + 1];
      }
    }
  }

  /** At time `clock` the gap of the trace's last fetch has passed. */
  ghost predicate RestedAt(t: seq<Start>, clock: int, delay: nat) {
    |t| > 0 ==> clock >= t[|t| - 1].at + Gap(t[|t| - 1], delay)
  }

  /** `whole` is `rest` preceded by `retried` rate-limited fetches and `waited` of backoff. */
  predicate Accounted(whole: Run, rest: Run, retried: nat, waited: nat) {
    whole == Run(rest.outcome, retried + rest.attempts, waited + rest.elapsed)
  }

  /** Accounting one retry moves a fetch and a backoff from the rest of the run to what came before. */
  lemma RetryAccounted(script: nat -> Answer, delay: nat, first: nat, retries: nat, whole: Run, retried: nat, waited: nat)
    requires Retries(Classify(script(first)), retries)
    requires Accounted(whole, Attempts(script, first, retries, delay), retried, waited)
    ensures Accounted(whole, Attempts(script, first + 1, retries - 1, delay), retried + 1, waited + 2 * delay)
  {
    AttemptsRetry(script, first, retries, delay);
  }

  /**
   * The fetches for `r`, from `script(calls)` on, until an answer is not
   * retried, with the backoff before each retry: `a` is the last answer,
   * `retries` what was left of the budget, `k` the next unused answer,
   * `trace` the fetch log `starts` extended with them and `now` the time of
   * the last.
   */
  method FetchUntilFinal(script: nat -> Answer, delay: nat, calls: nat, ghost clock: int, ghost starts: seq<Start>, r: Request)
    returns (a: Answer, retries: nat, k: nat, ghost now: int, ghost trace: seq<Start>)
    requires SpacedTrace(starts, delay) && RestedAt(starts, clock, delay) && OrderedUpTo(starts, r.id)
    ensures SpacedTrace(trace, delay) && OrderedUpTo(trace, r.id)
    ensures k > calls && a == script(k - 1) && !Retries(Classify(a), retries)
    ensures |trace| == |starts| + (k - calls) && trace[|trace| - 1] == Start(r.id, now, a, retries)
    ensures now >= clock
    ensures var rest := Attempts(script, k - 1, retries, delay);
      Attempts(script, calls, r.retries, delay)
      == Run(rest.outcome, k - 1 - calls + rest.attempts, now - clock + rest.elapsed)
  {
    k := calls;
    now, trace := clock, starts;
    ghost var whole := Attempts(script, k, r.retries, delay);
    ghost var waited: nat := 0;
    retries := r.retries;
    a := script(k);
    FirstIssue(starts, Start(r.id, now, a, retries), clock, delay);
    trace := trace + [Start(r.id, now, a, retries)];
    k := k + 1;
    while Retries(Classify(a), retries)
      invariant retries <= r.retries && k == calls + 1 + (r.retries - retries)
      invariant now == clock + waited
      invariant a == script(k - 1)
      invariant Accounted(whole, Attempts(script, k - 1, retries, delay), r.retries - retries, waited)
      invariant Issued(trace, |starts| + (k - calls), Start(r.id, now, a, retries), delay)
      decreases retries
    {
      RetryAccounted(script, delay, k - 1, retries, whole, r.retries - retries, waited);
      ghost var last := Start(r.id, now, a, retries);
      now, waited := now + 2 * delay, waited + 2 * delay;
      retries := retries - 1;
      a := script(k);
      NextIssue(trace, |starts| + (k - calls), last, Start(r.id, now, a, retries), delay);
      trace := trace + [Start(r.id, now, a, retries)];
      k := k + 1;
    }
  }

  /** `trace` holds `n` fetches ending with `last`, spaced and ordered up to `last`'s call. */
  ghost predicate Issued(trace: seq<Start>, n: nat, last: Start, delay: nat) {
    |trace| == n > 0 && trace[n - 1] == last && SpacedTrace(trace, delay) && OrderedUpTo(trace, last.id)
  }

  /** The first fetch of a call issued on a rested, ordered queue. */
  lemma FirstIssue(t: seq<Start>, s: Start, clock: int, delay: nat)
    requires SpacedTrace(t, delay) && RestedAt(t, clock, delay) && OrderedUpTo(t, s.id) && s.at == clock
    ensures Issued(t + [s], |t| + 1, s, delay)
  {
    AppendStart(t, s, delay, s.id);
  }

  /** A retry issued a backoff after a rate-limited fetch of the same call. */
  lemma NextIssue(t: seq<Start>, n: nat, last: Start, s: Start, delay: nat)
    requires Issued(t, n, last, delay) && s.id == last.id
    requires Retries(Classify(last.answer), last.retriesLeft) && s.at == last.at + 2 * delay
    ensures Issued(t + [s], n + 1, s, delay)
  {
    AppendStart(t, s, delay, s.id);
  }

  /** Pending calls carry increasing ids, all below `next`. */
  ghost predicate QueuedIds(p: seq<Request>, next: nat) {
    && (forall i, j :: 0 <= i < j < |p| ==> p[i].id < p[j].id)
    && (forall i :: 0 <= i < |p| ==> p[i].id < next)
  }

  /** Every pending call was submitted after `id`. */
  ghost predicate Above(p: seq<Request>, id: nat) {
    forall j :: 0 <= j < |p| ==> id < p[j].id
  }

  /** Fetches were issued in submission order, for calls submitted before every pending one. */
  ghost predicate StartedBefore(t: seq<Start>, p: seq<Request>, next: nat) {
    && (forall i, j :: 0 <= i < j < |t| ==> t[i].id <= t[j].id)
    && (forall i :: 0 <= i < |t| ==> Above(p, t[i].id))
    && (forall i :: 0 <= i < |t| ==> t[i].id < next)
  }

  /** Taking the oldest pending call: it comes after every fetch so far and before every other pending call. */
  lemma Dispatch(t: seq<Start>, p: seq<Request>, next: nat)
    requires QueuedIds(p, next) && StartedBefore(t, p, next) && p != []
    ensures QueuedIds(p[1..], next) && OrderedUpTo(t, p[0].id) && Above(p[1..], p[0].id) && p[0].id < next
  {
    forall i | 0 <= i < |t|
      ensures t[i].id <= p[0].id
    {
      assert Above(p, t[i].id);
    }
  }

  /** After the fetches of call `id`, the queue is ordered again. */
  lemma Resume(t: seq<Start>, p: seq<Request>, next: nat, id: nat)
    requires OrderedUpTo(t, id) && Above(p, id) && id < next
    ensures StartedBefore(t, p, next)
  {
  }

  /** Submitting a call with the next id keeps the queue ordered. */
  lemma Enqueue(t: seq<Start>, p: seq<Request>, next: nat, retries: nat)
    requires QueuedIds(p, next) && StartedBefore(t, p, next)
    ensures QueuedIds(p + [Request(next, retries)], next + 1)
    ensures StartedBefore(t, p + [Request(next, retries)], next + 1)
  {
    var q := p + [Request(next, retries)];
    forall i | 0 <= i < |t|
      ensures Above(q, t[i].id)
    {
      assert Above(p, t[i].id);
    }
  }

  class MetaRequestQueue {
    const requestDelay: nat
    const script: nat -> Answer
    /** Fetches issued so far; the next one receives `script(calls)`. */
    var calls: nat
    /** Calls submitted and not yet started, oldest first. */
    var pending: seq<Request>
    var nextId: nat
    /** Settled caller promises. */
    var settled: map<nat, Settled>
    /** Set once a retry has been chained behind the running task (as written only). */
    var stalled: bool
    ghost var clock: int
    ghost var starts: seq<Start>

    ghost predicate Queued()
      reads this
    {
      QueuedIds(pending, nextId)
    }

    ghost predicate Ordered()
      reads this
    {
      StartedBefore(starts, pending, nextId)
    }

    /** Consecutive fetches are at least the gap of the earlier one apart. */
    ghost predicate Spaced()
      reads this
    {
      SpacedTrace(starts, requestDelay)
    }

    /** The queue is idle: the last fetch's gap has passed. */
    ghost predicate Rested()
      reads this
    {
      RestedAt(starts, clock, requestDelay)
    }

    ghost predicate Valid()
      reads this
    {
      Queued() && Ordered() && Spaced() && Rested()
    }

    /** MetaAnalyticsService's queue: 1000 ms between requests. */
    constructor ForAnalytics(script: nat -> Answer)
      ensures Valid() && requestDelay == 1000 && this.script == script
      ensures pending == [] && starts == [] && settled == map[] && calls == 0 && !stalled
    {
      requestDelay := 1000;
      this.script := script;
      calls, pending, nextId, settled, stalled := 0, [], 0, map[], false;
      clock, starts := 0, [];
    }

    /** MetaApiService's queue: 300 ms between requests, so a 600 ms backoff. */
    constructor ForApi(script: nat -> Answer)
      ensures Valid() && requestDelay == 300 && this.script == script
      ensures pending == [] && starts == [] && settled == map[] && calls == 0 && !stalled
    {
      requestDelay := 300;
      this.script := script;
      calls, pending, nextId, settled, stalled := 0, [], 0, map[], false;
      clock, starts := 0, [];
    }

    /** `makeRequest(url, retries)`: chain the call at the end of the queue. */
    method Submit(retries: nat) returns (id: nat)
      requires Valid()
      modifies this
      ensures Valid()
      ensures id == old(nextId) && nextId == old(nextId) + 1
      ensures pending == old(pending) + [Request(id, retries)]
      ensures settled == old(settled) && starts == old(starts) && calls == old(calls)
      ensures clock == old(clock) && stalled == old(stalled)
    {
      id := nextId;
      Enqueue(starts, pending, nextId, retries);
      pending := pending + [Request(id, retries)];
      nextId := nextId + 1;
    }

    /**
     * Runs the oldest pending call to completion, retrying rate-limited
     * attempts in place, and settles its caller's promise with the outcome
     * `Attempts` describes.
     */
    method Step() returns (outcome: Option<Settled>)
      requires Valid()
      modifies this
      ensures Valid()
      ensures old(pending) == [] ==> outcome.None? && pending == [] && calls == old(calls)
                                     && settled == old(settled) && clock == old(clock)
      ensures old(pending) != [] ==>
        var r := old(pending)[0];
        var run := Attempts(script, old(calls), r.retries, requestDelay);
        && outcome == Some(run.outcome)
        && pending == old(pending)[1..]
        && settled == old(settled)[r.id := run.outcome]
        && calls == old(calls) + run.attempts
        && clock == old(clock) + run.elapsed
        && |starts| == |old(starts)| + run.attempts
      ensures nextId == old(nextId) && stalled == old(stalled)
    {
      if pending == [] {
        return None;
      }
      var r := pending[0];
      Dispatch(starts, pending, nextId);
      pending := pending[1..];
      var result := RunAttempts(r);
      Resume(starts, pending, nextId, r.id);
      settled := settled[r.id := result];
      outcome := Some(result);
    }

    /** The fetches of one dequeued call, retried in place; the queue is idle again afterwards. */
    method RunAttempts(r: Request) returns (result: Settled)
      requires Spaced() && Rested() && OrderedUpTo(starts, r.id)
      modifies this
      ensures Spaced() && Rested() && OrderedUpTo(starts, r.id)
      ensures var run := Attempts(script, old(calls), r.retries, requestDelay);
        && result == run.outcome
        && calls == old(calls) + run.attempts
        && clock == old(clock) + run.elapsed
        && |starts| == |old(starts)| + run.attempts
      ensures pending == old(pending) && settled == old(settled) && nextId == old(nextId)
      ensures stalled == old(stalled)
    {
      var a, retries, k, now, trace := FetchUntilFinal(script, requestDelay, calls, clock, starts, r);
      AttemptsLast(script, k - 1, retries, requestDelay);
      var c := Classify(a);
      result := if c.Succeeded? then Resolved(c.data) else Rejected(c.failure);
      calls := k;
      clock, starts := if c.Succeeded? then now + requestDelay else now, trace;
    }

    /**
     * The same step as written: a success waits and resolves, another
     * failure (or none left to retry) rejects at once, and a rate-limited
     * attempt with retries left waits `2 * requestDelay`, chains a new
     * attempt behind the running one and so blocks the queue for good.
     */
    method StepAsWritten() returns (outcome: Option<Settled>)
      requires Valid()
      modifies this
      ensures Valid()
      ensures old(stalled) || old(pending) == [] ==>
        outcome.None? && pending == old(pending) && settled == old(settled) && calls == old(calls) && stalled == old(stalled)
      ensures !old(stalled) && old(pending) != [] ==>
        var r := old(pending)[0];
        var run := AsWrittenAttempt(old(script(calls)), r.retries, requestDelay);
        && calls == old(calls) + 1
        && clock == old(clock) + run.elapsed
        && (run.Settles? ==> outcome == Some(run.outcome) && settled == old(settled)[r.id := run.outcome]
                             && pending == old(pending)[1..] && !stalled && nextId == old(nextId))
        && (run.Stalls? ==> outcome.None? && settled == old(settled) && stalled && nextId == old(nextId) + 1
                            && pending == old(pending)[1..] + [Request(old(nextId), r.retries - 1)])
    {
      if stalled || pending == [] {
        return None;
      }
      var r := pending[0];
      Dispatch(starts, pending, nextId);
      pending := pending[1..];
      outcome := AttemptAsWritten(r);
      Resume(starts, pending, nextId, r.id);
      if outcome.Some? {
        settled := settled[r.id := outcome.value];
      } else {
        Enqueue(starts, pending, nextId, r.retries - 1);
        pending := pending + [Request(nextId, r.retries - 1)];
        nextId := nextId + 1;
        stalled := true;
      }
    }

    /** The single fetch of a dequeued call as written, and the wait that follows it. */
    method AttemptAsWritten(r: Request) returns (result: Option<Settled>)
      requires Spaced() && Rested() && OrderedUpTo(starts, r.id)
      modifies this
      ensures Spaced() && Rested() && OrderedUpTo(starts, r.id)
      ensures var run := AsWrittenAttempt(old(script(calls)), r.retries, requestDelay);
        && calls == old(calls) + 1
        && clock == old(clock) + run.elapsed
        && |starts| == |old(starts)| + 1
        && result == (if run.Settles? then Some(run.outcome) else None)
      ensures pending == old(pending) && settled == old(settled) && nextId == old(nextId)
      ensures stalled == old(stalled)
    {
      var a := script(calls);
      var c := Classify(a);
      AppendStart(starts, Start(r.id, clock, a, r.retries), requestDelay, r.id);
      calls, starts := calls + 1, starts + [Start(r.id, clock, a, r.retries)];
      if Retries(c, r.retries) {
        clock := clock + 2 * requestDelay;
        result := None;
      } else {
        if c.Succeeded? {
          clock := clock + requestDelay;
        }
        result := Some(if c.Succeeded? then Resolved(c.data) else Rejected(c.failure));
      }
    }
  }
}
