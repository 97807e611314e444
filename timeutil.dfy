/** The timing helpers of quant/util/timeutil.py: the Waiter that a blocking call
    polls, and the calendar-day counting used to size historical requests. The
    clock is a parameter (a reading of `perf_counter`), and whether a date is a
    trading day is an abstract predicate on calendar days. */
module TimeUtil {
  import opened Markets

  const SecondsPerDay := 86400

  /** The calendar day a moment falls on. */
  function Day(t: DateTime): int
  {
    t / SecondsPerDay
  }

  /** A flag the waiting side polls until the completing side marks it done or the
      allowed time has passed. */
  class Waiter {
    var waiting: bool
    const maxWait: real
    const start: real

    /** `Waiter(max_wait)` created at clock reading `now`: waiting. */
    constructor (maxWait: real, now: real)
      ensures waiting && this.maxWait == maxWait && start == now
    {
      waiting := true;
      this.maxWait := maxWait;
      start := now;
    }

    /** `done()`: stop waiting. */
    method Done()
      modifies this
      ensures !waiting
    {
      waiting := false;
    }

    /** Calling the waiter is the same as `done()`. */
    method Call()
      modifies this
      ensures !waiting
    {
      Done();
    }

    /** `still_waiting()` at clock reading `now`: not done and the time not yet over. */
    predicate StillWaiting(now: real)
      reads this
    {
      waiting && now - start <= maxWait
    }

    /** `expired()` at clock reading `now`: not done and the time reached. */
    predicate Expired(now: real)
      reads this
    {
      waiting && now - start >= maxWait
    }
  }

  /** While the waiter is not done it is still waiting or expired (or, exactly at the
      deadline, both); once done it is neither. */
  lemma WaiterStates(w: Waiter, now: real)
    ensures w.waiting ==> w.StillWaiting(now) || w.Expired(now)
    ensures w.StillWaiting(now) && w.Expired(now) <==> w.waiting && now - w.start == w.maxWait
    ensures !w.waiting ==> !w.StillWaiting(now) && !w.Expired(now)
  {
  }

  /** A waiting waiter stops waiting exactly when the time is over. */
  lemma WaiterDeadline(w: Waiter, now: real)
    requires w.waiting
    ensures w.StillWaiting(now) <==> now <= w.start + w.maxWait
    ensures w.Expired(now) <==> now >= w.start + w.maxWait
  {
  }

  /** `spans_days`: the two moments fall on different calendar dates. */
  predicate SpansDays(start: DateTime, end: DateTime)
  {
    Day(start) != Day(end)
  }

  /** A moment lies on calendar day d exactly when it falls in that day's 86400 seconds. */
  lemma OnDay(t: DateTime, d: int)
    ensures Day(t) == d <==> d * SecondsPerDay <= t < d * SecondsPerDay + SecondsPerDay
  {
    var q, m := t / SecondsPerDay, t % SecondsPerDay;
    assert t == q * SecondsPerDay + m && 0 <= m < SecondsPerDay;
    if d < q {
      assert d * SecondsPerDay + SecondsPerDay <= q * SecondsPerDay;
    } else if d > q {
      assert q * SecondsPerDay + SecondsPerDay <= d * SecondsPerDay;
    }
  }

  /** Two moments do not span days exactly when the second falls within the first's
      calendar day; the relation is symmetric, and a moment a full day later always
      spans days. */
  lemma SpansDaysFacts(a: DateTime, b: DateTime)
    ensures !SpansDays(a, b) <==> Day(a) * SecondsPerDay <= b < Day(a) * SecondsPerDay + SecondsPerDay
    ensures SpansDays(a, b) == SpansDays(b, a)
    ensures SpansDays(a, a + SecondsPerDay)
  {
    OnDay(b, Day(a));
    OnDay(a, Day(a));
    OnDay(a + SecondsPerDay, Day(a) + 1);
    assert (Day(a) + 1) * SecondsPerDay == Day(a) * SecondsPerDay + SecondsPerDay;
  }

  /** The number of one-day steps from `start` taken while strictly before `end`. */
  function DaySteps(start: DateTime, end: DateTime): nat
    decreases end - start
  {
    if start >= end then 0 else 1 + DaySteps(start + SecondsPerDay, end)
  }

  /** How many of those steps start on a trading day. */
  function TradingSteps(start: DateTime, end: DateTime, tradingDay: int -> bool): nat
    decreases end - start
  {
    if start >= end then 0
    else (if tradingDay(Day(start)) then 1 else 0) + TradingSteps(start + SecondsPerDay, end, tradingDay)
  }

  /** The step count is the number of whole or partial days from start to end. */
  lemma {:induction false} DayStepsIsCeiling(start: DateTime, end: DateTime)
    ensures start < end ==> DaySteps(start, end) == (end - start + SecondsPerDay - 1) / SecondsPerDay
    ensures start >= end ==> DaySteps(start, end) == 0
    decreases end - start
  {
    if start < end {
      DayStepsIsCeiling(start + SecondsPerDay, end);
      var d := end - start;
      if d <= SecondsPerDay {
        assert (d + SecondsPerDay - 1) / SecondsPerDay == 1;
      } else {
        assert (d + SecondsPerDay - 1) / SecondsPerDay == (d - SecondsPerDay + SecondsPerDay - 1) / SecondsPerDay + 1;
      }
    }
  }

  /** Never more trading days than days. */
  lemma {:induction false} TradingStepsBound(start: DateTime, end: DateTime, tradingDay: int -> bool)
    ensures TradingSteps(start, end, tradingDay) <= DaySteps(start, end)
    decreases end - start
  {
    if start < end {
      TradingStepsBound(start + SecondsPerDay, end, tradingDay);
    }
  }

  /** `count_trading_days(start, end)`: step a day at a time from start while before end,
      counting the steps and those that start on a trading day. */
  method CountTradingDays(start: DateTime, end: DateTime, tradingDay: int -> bool)
    returns (totalDays: nat, tradingDays: nat)
    ensures totalDays == DaySteps(start, end)
    ensures tradingDays == TradingSteps(start, end, tradingDay)
    ensures tradingDays <= totalDays
    ensures start >= end ==> totalDays == 0 && tradingDays == 0
  {
    tradingDays := 0;
    totalDays := 0;
    var cur := start;
    while cur < end
      invariant DaySteps(start, end) == totalDays + DaySteps(cur, end)
      invariant TradingSteps(start, end, tradingDay) == tradingDays + TradingSteps(cur, end, tradingDay)
      decreases end - cur
    {
      if tradingDay(Day(cur)) {
        tradingDays := tradingDays + 1;
      }
      cur := cur + SecondsPerDay;
      totalDays := totalDays + 1;
    }
    TradingStepsBound(start, end, tradingDay);
  }
}
