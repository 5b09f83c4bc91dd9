/**
 * The circuit breaker: a decision over two ledger readings (today's spend and this hour's
 * agent-loop count) against two configured limits. Spend is a `real`; the reason text's
 * decimal formatting is not modelled, so a reason is a datatype carrying both numbers.
 */
module CircuitBreaker {
  import opened Wrappers

  /** `CircuitBreakerConfig`. */
  datatype Thresholds = Thresholds(maxDailySpend: real, maxLoopsPerHour: int)

  /** The configuration schema's constraints: both limits positive, the loop limit an integer. */
  predicate ValidThresholds(t: Thresholds)
  {
    t.maxDailySpend > 0.0 && t.maxLoopsPerHour > 0
  }

  /** `Daily spend limit exceeded: $<spend> >= $<limit>` or `Hourly loop limit exceeded: <loops> >= <limit>`. */
  datatype Reason =
    | SpendExceeded(spend: real, spendLimit: real)
    | LoopsExceeded(loops: int, loopLimit: int)

  /** `tripReason()`: the spend limit is checked first and both bounds are inclusive. */
  function TripReason(dailySpend: real, hourlyLoops: int, t: Thresholds): (r: Option<Reason>)
    ensures r.None? <==> dailySpend < t.maxDailySpend && hourlyLoops < t.maxLoopsPerHour
    ensures dailySpend >= t.maxDailySpend ==> r == Some(SpendExceeded(dailySpend, t.maxDailySpend))
    ensures dailySpend < t.maxDailySpend && hourlyLoops >= t.maxLoopsPerHour ==>
              r == Some(LoopsExceeded(hourlyLoops, t.maxLoopsPerHour))
  {
    if dailySpend >= t.maxDailySpend then Some(SpendExceeded(dailySpend, t.maxDailySpend))
    else if hourlyLoops >= t.maxLoopsPerHour then Some(LoopsExceeded(hourlyLoops, t.maxLoopsPerHour))
    else None
  }

  /** `isTripped()`. */
  predicate IsTripped(dailySpend: real, hourlyLoops: int, t: Thresholds)
  {
    TripReason(dailySpend, hourlyLoops, t).Some?
  }

  /** What `check()` does: the `tripped` events it emits and the error it throws, if any. */
  datatype CheckOutcome = CheckOutcome(tripped: seq<Reason>, thrown: Option<Reason>)

  /**
   * `check()`: when tripped, emit `tripped` once with the reason and throw an
   * error carrying it (`Circuit breaker tripped: ` followed by the reason text); otherwise
   * emit nothing and return.
   */
  function Check(dailySpend: real, hourlyLoops: int, t: Thresholds): (r: CheckOutcome)
    ensures IsTripped(dailySpend, hourlyLoops, t) <==> r.thrown.Some?
    ensures r.thrown.None? ==> r.tripped == []
    ensures r.thrown.Some? ==> r.tripped == [r.thrown.value] &&
                               Some(r.thrown.value) == TripReason(dailySpend, hourlyLoops, t)
  {
    match TripReason(dailySpend, hourlyLoops, t)
    case None => CheckOutcome([], None)
    case Some(reason) => CheckOutcome([reason], Some(reason))
  }

  /** Each reason names the observed value together with the limit it reached. */
  lemma ReasonNamesValueAndLimit(dailySpend: real, hourlyLoops: int, t: Thresholds)
    requires IsTripped(dailySpend, hourlyLoops, t)
    ensures match TripReason(dailySpend, hourlyLoops, t).value
      case SpendExceeded(spend, limit) => spend == dailySpend && limit == t.maxDailySpend && spend >= limit
      case LoopsExceeded(loops, limit) => loops == hourlyLoops && limit == t.maxLoopsPerHour && loops >= limit
  {
  }

  /** With valid limits, an idle ledger (no spend, no loops) never trips. */
  lemma IdleNeverTrips(t: Thresholds)
    requires ValidThresholds(t)
    ensures !IsTripped(0.0, 0, t)
  {
  }

  /** Tripping is monotone: more spend or more loops never un-trips the breaker. */
  lemma TrippedStaysTripped(s1: real, l1: int, s2: real, l2: int, t: Thresholds)
    requires IsTripped(s1, l1, t) && s1 <= s2 && l1 <= l2
    ensures IsTripped(s2, l2, t)
  {
  }

  /** The limits of the tests: $10.00 a day, 100 loops an hour. */
  lemma TestLimits()
    ensures var t := Thresholds(10.0, 100);
      !IsTripped(5.0, 50, t) &&
      !IsTripped(9.99, 99, t) &&
      TripReason(10.0, 50, t) == Some(SpendExceeded(10.0, 10.0)) &&
      TripReason(5.0, 100, t) == Some(LoopsExceeded(100, 100)) &&
      TripReason(15.0, 150, t) == Some(SpendExceeded(15.0, 10.0)) &&
      Check(15.0, 50, t) == CheckOutcome([SpendExceeded(15.0, 10.0)], Some(SpendExceeded(15.0, 10.0))) &&
      Check(5.0, 50, t) == CheckOutcome([], None)
  {
  }
}
