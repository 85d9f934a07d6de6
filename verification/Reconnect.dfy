/** The reconnect timer (cn_futures_bridge/reconnect.py): a value specification, the object that updates its fields in
    place, and what holds over every run of its calls.
 */
module Reconnect {
  import opened Base

  datatype ErrorCode = ConnectionFailed | ConnectionLost | StorageLost | OtherError(code: nat)

  datatype ErrorDetail = ErrorDetail(code: ErrorCode, message: nat)

  predicate IsConnectionError(error: Option<ErrorDetail>) {
    error.Some? && (error.value.code == ConnectionFailed || error.value.code == ConnectionLost)
  }

  datatype Observation = Observation(error: Option<ErrorDetail>, safe: bool)

  datatype PlanState = Idle | Waiting | Reconnecting | Manual | Disabled

  datatype Plan = Plan(enabled: bool, interval: nat, state: PlanState, attempts: nat, manualRequired: bool,
                       lastError: Option<ErrorDetail>, nextRetryAt: Option<Time>, deadline: Option<Time>,
                       observed: Option<Observation>, startedAt: Option<Time>)

  function Initial(enabled: bool, interval: nat): Plan {
    Plan(enabled, interval, if enabled then Idle else Disabled, 0, false, None, None, None, None, None)
  }

  function Observed(p: Plan, now: Time, error: Option<ErrorDetail>, safe: bool): Plan {
    if p.observed == Some(Observation(error, safe)) && p.startedAt.None? then p
    else
      var known := p.(observed := Some(Observation(error, safe)), startedAt := None, deadline := None,
                      nextRetryAt := None, lastError := Coalesce(error, p.lastError));
      if error.None? && safe then known.(manualRequired := false, state := if p.enabled then Idle else Disabled)
      else if p.enabled && safe && IsConnectionError(error)
      then known.(manualRequired := false, state := Waiting, deadline := Some(now + p.interval as real),
                  nextRetryAt := Some(now + p.interval as real))
      else known.(manualRequired := true, state := if p.enabled then Manual else Disabled)
  }

  predicate Due(p: Plan, now: Time) {
    p.deadline.Some? && now >= p.deadline.value
  }

  function Begun(p: Plan, now: Time): Plan {
    p.(deadline := None, nextRetryAt := None, state := Reconnecting, attempts := p.attempts + 1, startedAt := Some(now))
  }

  function Ceil(x: real): int {
    -((-x).Floor)
  }

  function RetryAfter(p: Plan, now: Time, paused: bool): Option<int> {
    if paused || p.manualRequired then None
    else if p.state == Reconnecting then Some(p.interval)
    else if p.deadline.Some? then
      var left := Ceil(p.deadline.value - now);
      Some(if left < 1 then 1 else left)
    else None
  }

  // ----- In plain fields -----

  /** The two errors that a restart of the terminal can cure. */
  lemma ConnectionErrorsAreTwo(error: Option<ErrorDetail>)
    ensures IsConnectionError(error) <==>
              error.Some? && (error.value.code == ConnectionFailed || error.value.code == ConnectionLost)
    ensures !IsConnectionError(Some(ErrorDetail(StorageLost, 0)))
  {
  }

  /** What an observation does: nothing when it repeats the last one with no attempt open; otherwise it ends an
      attempt and sets the timer, one interval ahead, exactly for a connection error on a safe terminal with
      reconnecting enabled; anything but a healthy terminal then needs a hand. */
  lemma ObservationIsExact(p: Plan, now: Time, error: Option<ErrorDetail>, safe: bool)
    ensures var after := Observed(p, now, error, safe);
            var repeated := p.observed == Some(Observation(error, safe)) && p.startedAt.None?;
            var curable := error.Some? && (error.value.code == ConnectionFailed || error.value.code == ConnectionLost);
            var scheduled := p.enabled && safe && curable;
            && (repeated ==> after == p)
            && (!repeated ==>
                  && after.observed == Some(Observation(error, safe)) && after.startedAt.None?
                  && after.deadline == (if scheduled then Some(now + p.interval as real) else None)
                  && after.nextRetryAt == after.deadline && after.attempts == p.attempts
                  && after.lastError == (if error.Some? then error else p.lastError)
                  && (after.manualRequired <==> !scheduled && (error.Some? || !safe))
                  && after.state == (if scheduled then Waiting else if !p.enabled then Disabled
                                     else if error.None? && safe then Idle else Manual))
            && after.enabled == p.enabled && after.interval == p.interval
  {
  }

  /** When an attempt is due, what beginning it changes, and what callers are told to wait. */
  lemma AttemptIsExact(p: Plan, now: Time, paused: bool)
    ensures Due(p, now) <==> p.deadline.Some? && p.deadline.value <= now
    ensures var begun := Begun(p, now);
            && begun == p.(deadline := None, nextRetryAt := None, state := Reconnecting, startedAt := Some(now),
                           attempts := p.attempts + 1)
    ensures var told := RetryAfter(p, now, paused);
            && (paused || p.manualRequired ==> told.None?)
            && (!paused && !p.manualRequired && p.state == Reconnecting ==> told == Some(p.interval))
            && (!paused && !p.manualRequired && p.state != Reconnecting ==>
                  && (told.Some? <==> p.deadline.Some?)
                  && (told.Some? ==>
                        told.value >= 1 && told.value as real >= p.deadline.value - now
                        && (told.value > 1 ==> (told.value - 1) as real < p.deadline.value - now)))
  {
  }

  class ReconnectPlan {
    const enabled: bool
    const interval: nat
    var state: PlanState
    var attempts: nat
    var manualRequired: bool
    var lastError: Option<ErrorDetail>
    var nextRetryAt: Option<Time>
    var deadline: Option<Time>
    var observed: Option<Observation>
    var startedAt: Option<Time>

    constructor (enabled: bool, interval: nat)
      ensures View() == Initial(enabled, interval)
    {
      this.enabled := enabled;
      this.interval := interval;
      state := if enabled then Idle else Disabled;
      attempts := 0;
      manualRequired := false;
      lastError := None;
      nextRetryAt := None;
      deadline := None;
      observed := None;
      startedAt := None;
    }

    ghost function View(): Plan
      reads this
    {
      Plan(enabled, interval, state, attempts, manualRequired, lastError, nextRetryAt, deadline, observed, startedAt)
    }

    method Observe(now: Time, error: Option<ErrorDetail>, safe: bool)
      modifies this
      ensures View() == Observed(old(View()), now, error, safe)
    {
      var observation := Observation(error, safe);
      if observed == Some(observation) && startedAt.None? {
        return;
      }
      observed := Some(observation);
      startedAt := None;
      deadline := None;
      nextRetryAt := None;
      manualRequired := !safe || error.Some?;
      if error.None? && safe {
        state := if enabled then Idle else Disabled;
        return;
      }
      if error.Some? {
        lastError := error;
      }
      if enabled && safe && IsConnectionError(error) {
        manualRequired := false;
        state := Waiting;
        deadline := Some(now + interval as real);
        nextRetryAt := Some(now + interval as real);
      } else {
        state := if enabled then Manual else Disabled;
      }
    }

    method Begin(now: Time)
      modifies this
      ensures View() == Begun(old(View()), now)
    {
      deadline := None;
      nextRetryAt := None;
      state := Reconnecting;
      attempts := attempts + 1;
      startedAt := Some(now);
    }
  }

  // ----- Every run -----

  /** How the fields hang together between calls. */
  ghost predicate Coherent(p: Plan) {
    && (p.state == Reconnecting <==> p.startedAt.Some?)
    && (p.state == Waiting <==> p.deadline.Some?)
    && (p.state == Disabled <==> !p.enabled)
    && p.nextRetryAt == p.deadline
    && (p.state == Waiting || p.state == Reconnecting ==>
          !p.manualRequired && p.observed.Some? && p.observed.value.safe && IsConnectionError(p.observed.value.error))
    && (p.state == Manual ==> p.manualRequired)
  }

  datatype Call = Observe(now: Time, error: Option<ErrorDetail>, safe: bool) | Begin(now: Time)

  function Play(p: Plan, call: Call): Plan {
    match call
    case Observe(now, error, safe) => Observed(p, now, error, safe)
    case Begin(now) => Begun(p, now)
  }

  function After(p: Plan, calls: seq<Call>): Plan {
    if calls == [] then p else Play(After(p, calls[..|calls| - 1]), calls[|calls| - 1])
  }

  /** The clock never goes back and an attempt begins only when the timer is due (dispatch.py:210-212). */
  ghost predicate Timely(p: Plan, calls: seq<Call>) {
    && (forall i, j :: 0 <= i < j < |calls| ==> calls[i].now <= calls[j].now)
    && (forall i :: 0 <= i < |calls| && calls[i].Begin? ==> Due(After(p, calls[..i]), calls[i].now))
  }

  lemma CallsKeepCoherent(p: Plan, call: Call)
    requires Coherent(p) && (call.Begin? ==> Due(p, call.now))
    ensures Coherent(Play(p, call))
  {
  }

  lemma TimelyPrefix(p: Plan, calls: seq<Call>, n: nat)
    requires Timely(p, calls) && n <= |calls|
    ensures Timely(p, calls[..n])
  {
    forall i | 0 <= i < n ensures calls[..n][..i] == calls[..i] { }
  }

  lemma {:induction false} RunsAreCoherent(enabled: bool, interval: nat, calls: seq<Call>)
    requires Timely(Initial(enabled, interval), calls)
    ensures Coherent(After(Initial(enabled, interval), calls))
  {
    if calls != [] {
      var n := |calls| - 1;
      TimelyPrefix(Initial(enabled, interval), calls, n);
      RunsAreCoherent(enabled, interval, calls[..n]);
      CallsKeepCoherent(After(Initial(enabled, interval), calls[..n]), calls[n]);
    }
  }

  /** Call i scheduled the pending attempt; everything after it only repeated the same observation. */
  ghost predicate ScheduledBy(calls: seq<Call>, i: nat, until: nat) {
    && i < until <= |calls|
    && calls[i].Observe? && calls[i].safe && IsConnectionError(calls[i].error)
    && forall j :: i < j < until ==> calls[j] == Observe(calls[j].now, calls[i].error, true)
  }

  /** A waiting timer was set by one observation of a connection error, exactly `interval` before it expires, and the
      observations after that one neither differed from it nor moved the deadline. */
  lemma {:induction false} DeadlineHasOrigin(enabled: bool, interval: nat, calls: seq<Call>)
    requires Timely(Initial(enabled, interval), calls)
    ensures var p := After(Initial(enabled, interval), calls);
            p.deadline.Some? ==> exists i: nat :: ScheduledBy(calls, i, |calls|) &&
                                   p.deadline.value == calls[i].now + interval as real &&
                                   p.observed == Some(Observation(calls[i].error, true))
  {
    var start := Initial(enabled, interval);
    if calls != [] {
      var n := |calls| - 1;
      var before := After(start, calls[..n]);
      TimelyPrefix(start, calls, n);
      DeadlineHasOrigin(enabled, interval, calls[..n]);
      RunsAreCoherent(enabled, interval, calls[..n]);
      IntervalIsFixed(start, calls[..n]);
      var p := After(start, calls);
      if p.deadline.Some? {
        if p == before {
          var i: nat :| ScheduledBy(calls[..n], i, n) && before.deadline.value == calls[i].now + interval as real
                        && before.observed == Some(Observation(calls[i].error, true));
          assert ScheduledBy(calls, i, |calls|);
        } else {
          assert ScheduledBy(calls, n, |calls|);
        }
      }
    }
  }

  lemma {:induction false} IntervalIsFixed(p: Plan, calls: seq<Call>)
    ensures After(p, calls).interval == p.interval && After(p, calls).enabled == p.enabled
  {
    if calls != [] { IntervalIsFixed(p, calls[..|calls| - 1]); }
  }

  /** An attempt begins at least `interval` after the observation that scheduled it, and that observation was the
      last word: a connection error, seen while it was safe to act. */
  lemma AttemptsWaitTheirInterval(enabled: bool, interval: nat, calls: seq<Call>, k: nat)
    requires Timely(Initial(enabled, interval), calls) && k < |calls| && calls[k].Begin?
    ensures enabled
    ensures exists i: nat :: ScheduledBy(calls, i, k) && calls[k].now >= calls[i].now + interval as real
  {
    var start := Initial(enabled, interval);
    TimelyPrefix(start, calls, k);
    DeadlineHasOrigin(enabled, interval, calls[..k]);
    RunsAreCoherent(enabled, interval, calls[..k]);
    IntervalIsFixed(start, calls[..k]);
    var p := After(start, calls[..k]);
    var i: nat :| ScheduledBy(calls[..k], i, k) && p.deadline.value == calls[i].now + interval as real;
    assert ScheduledBy(calls, i, k);
  }

  /** Retry-After is offered exactly while an unpaused plan is waiting or reconnecting, and lies in 1..interval. */
  lemma RetryAfterIsExact(enabled: bool, interval: nat, calls: seq<Call>, now: Time, paused: bool)
    requires Timely(Initial(enabled, interval), calls) && interval >= 1
    requires forall i :: 0 <= i < |calls| ==> calls[i].now <= now
    ensures var p := After(Initial(enabled, interval), calls);
            var answer := RetryAfter(p, now, paused);
            && (answer.Some? <==> !paused && (p.state == Waiting || p.state == Reconnecting))
            && (answer.Some? ==> 1 <= answer.value <= interval)
            && (answer.Some? && p.state == Waiting && !Due(p, now) ==>
                  now + answer.value as real >= p.deadline.value > now + (answer.value - 1) as real)
  {
    RunsAreCoherent(enabled, interval, calls);
    DeadlineHasOrigin(enabled, interval, calls);
    IntervalIsFixed(Initial(enabled, interval), calls);
  }

  /** `reconnecting` is shown exactly while an attempt is open: from a begin until the next observation of any kind. */
  lemma ReconnectingMeansOpenAttempt(enabled: bool, interval: nat, calls: seq<Call>)
    requires Timely(Initial(enabled, interval), calls)
    ensures After(Initial(enabled, interval), calls).state == Reconnecting
            <==> calls != [] && calls[|calls| - 1].Begin?
  {
    if calls != [] {
      var n := |calls| - 1;
      TimelyPrefix(Initial(enabled, interval), calls, n);
      RunsAreCoherent(enabled, interval, calls[..n]);
    }
  }
}
