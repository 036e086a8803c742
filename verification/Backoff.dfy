/** The fast-retry backoff (pkg/util/wait/backoff.go). Durations and instants are in
    nanoseconds, 0 being the zero instant and the zero duration; float64 is real, so
    rounding is not modelled. The clock and the random number are parameters. */
module Backoff {
  datatype Options = Options(duration: int, factor: real, jitter: real, maxDuration: int, initDurationIfFail: int,
                             fastRetryCount: int, fastRetryDelay: int, fastRetryJitter: real, fastRetryWindow: int)

  datatype State = State(lastCalledTime: int, consecutiveErrCount: nat, fastRetryCutoffTime: int,
                         countsInFastRetryWindow: nat)

  /** One call: the time, the caller's previous delay, whether the last attempt failed and
      the random number in [0, 1). */
  datatype Call = Call(now: int, previous: int, failed: bool, random: real)

  datatype Kind = Regular | Fast | Exponential

  const SECOND := 1_000_000_000

  const INIT := State(0, 0, 0, 1)

  /** Go's conversion to an integer type drops the fraction. */
  function Truncated(x: real): int {
    if x >= 0.0 then x.Floor else -((-x).Floor)
  }

  /** The default jitter factor is 1. */
  function FactorOf(maxFactor: real): real {
    if maxFactor <= 0.0 then 1.0 else maxFactor
  }

  function Spread(duration: int, factor: real, random: real): real {
    random * factor * duration as real
  }

  function Jitter(duration: int, maxFactor: real, random: real): int {
    duration + Truncated(Spread(duration, FactorOf(maxFactor), random))
  }

  function Grown(duration: int, factor: real): int {
    Truncated(duration as real * factor)
  }

  lemma SpreadIsBounded(duration: int, factor: real, random: real)
    requires duration >= 0 && factor >= 0.0 && 0.0 <= random < 1.0
    ensures 0.0 <= Spread(duration, factor, random) <= factor * duration as real
  {
    Product(random, factor);
    Product(random * factor, duration as real);
    ProductBelow(random, factor, duration as real);
  }

  /** The nanosecond is the largest one not above x. */
  predicate Rounds(d: int, x: real) {
    d as real <= x < d as real + 1.0
  }

  /** The duration with this share of the jitter added. */
  function Jittered(duration: int, factor: real, random: real): real {
    duration as real + random * factor * duration as real
  }

  /** Jitter adds the random share of the factor, to the nanosecond below, and stays between
      the duration and (1 + factor) times the duration. */
  lemma JitterIsBounded(duration: int, maxFactor: real, random: real)
    requires duration >= 0 && 0.0 <= random < 1.0
    ensures duration <= Jitter(duration, maxFactor, random)
    ensures Jitter(duration, maxFactor, random) as real <= duration as real + FactorOf(maxFactor) * duration as real
    ensures Rounds(Jitter(duration, maxFactor, random), Jittered(duration, FactorOf(maxFactor), random))
  {
    assert Jittered(duration, FactorOf(maxFactor), random)
        == duration as real + Spread(duration, FactorOf(maxFactor), random);
    hide Spread, Jittered;
    SpreadIsBounded(duration, FactorOf(maxFactor), random);
  }

  lemma Product(x: real, y: real)
    requires x >= 0.0 && y >= 0.0
    ensures x * y >= 0.0
  {
  }

  lemma ProductBelow(x: real, f: real, d: real)
    requires 0.0 <= x < 1.0 && f >= 0.0 && d >= 0.0
    ensures x * f * d <= f * d
  {
    Product(1.0 - x, f);
    Product((1.0 - x) * f, d);
  }

  predicate IsFast(o: Options, s: State, c: Call) {
    s.lastCalledTime != 0 && o.fastRetryCount > 0 && c.failed && s.countsInFastRetryWindow + 1 <= o.fastRetryCount
  }

  /** The call opens a new window. */
  predicate IsReset(o: Options, s: State, c: Call) {
    && s.lastCalledTime != 0 && o.fastRetryCount > 0 && c.failed
    && s.countsInFastRetryWindow + 1 > o.fastRetryCount && c.now > s.fastRetryCutoffTime
  }

  function KindOf(o: Options, s: State, c: Call): Kind {
    if IsFast(o, s, c) then Fast else if s.lastCalledTime != 0 && c.failed then Exponential else Regular
  }

  function EmptyOr(d: int, fallback: int): int {
    if d == 0 then fallback else d
  }

  function ExponentialDelay(o: Options, first: bool, c: Call): int {
    var base := EmptyOr(if first then EmptyOr(o.initDurationIfFail, c.previous) else c.previous, SECOND);
    var grown := if o.factor != 0.0 then Grown(base, o.factor) else base;
    var spread := if o.jitter > 0.0 then Jitter(grown, o.jitter, c.random) else grown;
    if o.maxDuration > 0 && spread > o.maxDuration then o.maxDuration else spread
  }

  function Delay(o: Options, s: State, c: Call): int {
    match KindOf(o, s, c)
    case Regular => o.duration
    case Fast => Jitter(o.fastRetryDelay, o.fastRetryJitter, c.random)
    case Exponential => ExponentialDelay(o, s.consecutiveErrCount == 0, c)
  }

  function Next(o: Options, s: State, c: Call): State {
    if s.lastCalledTime == 0 then s.(lastCalledTime := c.now)
    else
      var counted := o.fastRetryCount > 0 && c.failed;
      State(c.now, if c.failed then s.consecutiveErrCount + 1 else 0,
            if IsReset(o, s, c) then c.now + o.fastRetryWindow else s.fastRetryCutoffTime,
            if IsReset(o, s, c) then 0
            else if counted then s.countsInFastRetryWindow + 1
            else s.countsInFastRetryWindow)
  }

  class FastBackoff {
    const options: Options
    var lastCalledTime: int
    var consecutiveErrCount: nat
    var fastRetryCutoffTime: int
    var countsInFastRetryWindow: nat

    constructor (options: Options)
      ensures this.options == options && View() == INIT
    {
      this.options := options;
      lastCalledTime, consecutiveErrCount, fastRetryCutoffTime, countsInFastRetryWindow := 0, 0, 0, 1;
    }

    ghost function View(): State
      reads this
    {
      State(lastCalledTime, consecutiveErrCount, fastRetryCutoffTime, countsInFastRetryWindow)
    }

    method Backoff(c: Call) returns (delay: int)
      modifies this
      ensures View() == Next(options, old(View()), c)
      ensures delay == Delay(options, old(View()), c)
    {
      hide Jitter, Grown;
      if lastCalledTime == 0 {
        lastCalledTime := c.now;
        return options.duration;
      }
      lastCalledTime := c.now;
      if c.failed {
        consecutiveErrCount := consecutiveErrCount + 1;
      } else {
        consecutiveErrCount := 0;
      }
      if options.fastRetryCount > 0 && c.failed {
        countsInFastRetryWindow := countsInFastRetryWindow + 1;
        if countsInFastRetryWindow <= options.fastRetryCount {
          return Jitter(options.fastRetryDelay, options.fastRetryJitter, c.random);
        }
        if c.now > fastRetryCutoffTime {
          fastRetryCutoffTime := c.now + options.fastRetryWindow;
          countsInFastRetryWindow := 0;
        }
      }
      if c.failed {
        var duration := c.previous;
        if consecutiveErrCount == 1 { duration := EmptyOr(options.initDurationIfFail, c.previous); }
        duration := EmptyOr(duration, SECOND);
        if options.factor != 0.0 { duration := Grown(duration, options.factor); }
        if options.jitter > 0.0 { duration := Jitter(duration, options.jitter, c.random); }
        if options.maxDuration > 0 && duration > options.maxDuration { duration := options.maxDuration; }
        return duration;
      }
      return options.duration;
    }
  }

  // ----- Runs -----

  /** The states along a run of calls on one manager. */
  ghost predicate IsRun(o: Options, states: seq<State>, calls: seq<Call>) {
    && |states| == |calls| + 1 && states[0] == INIT
    && forall i :: 0 <= i < |calls| ==> states[i + 1] == Next(o, states[i], calls[i])
  }

  /** How many of the calls i..j are fast. */
  ghost function Fasts(o: Options, states: seq<State>, calls: seq<Call>, i: nat, j: nat): nat
    requires |states| == |calls| + 1 && i <= j <= |calls|
    decreases j
  {
    if i == j then 0
    else Fasts(o, states, calls, i, j - 1) + if IsFast(o, states[j - 1], calls[j - 1]) then 1 else 0
  }

  ghost function Resets(o: Options, states: seq<State>, calls: seq<Call>, i: nat, j: nat): nat
    requires |states| == |calls| + 1 && i <= j <= |calls|
    decreases j
  {
    if i == j then 0
    else Resets(o, states, calls, i, j - 1) + if IsReset(o, states[j - 1], calls[j - 1]) then 1 else 0
  }

  function Used(o: Options, s: State): int {
    if s.countsInFastRetryWindow <= o.fastRetryCount then s.countsInFastRetryWindow else o.fastRetryCount
  }

  /** The fast retries balance exactly: each reset grants a full budget, and the counter
      says how much of the current one is used. */
  lemma {:induction false} FastBudgetIsExact(o: Options, states: seq<State>, calls: seq<Call>, i: nat, j: nat)
    requires IsRun(o, states, calls) && i <= j <= |calls| && o.fastRetryCount > 0
    ensures Fasts(o, states, calls, i, j)
            == o.fastRetryCount * Resets(o, states, calls, i, j) + Used(o, states[j]) - Used(o, states[i])
    decreases j
  {
    if i < j {
      FastBudgetIsExact(o, states, calls, i, j - 1);
      var r := Resets(o, states, calls, i, j - 1);
      assert o.fastRetryCount * (r + 1) == o.fastRetryCount * r + o.fastRetryCount;
      assert states[j] == Next(o, states[j - 1], calls[j - 1]);
    }
  }

  lemma {:induction false} CutoffStays(o: Options, states: seq<State>, calls: seq<Call>, i: nat, j: nat)
    requires IsRun(o, states, calls) && i < j <= |calls| && o.fastRetryWindow >= 0
    requires IsReset(o, states[i], calls[i])
    ensures states[j].fastRetryCutoffTime >= calls[i].now + o.fastRetryWindow
    decreases j
  {
    assert states[j] == Next(o, states[j - 1], calls[j - 1]);
    if j > i + 1 { CutoffStays(o, states, calls, i, j - 1); }
  }

  /** Calls in one window of time, later ones never earlier. */
  ghost predicate Within(calls: seq<Call>, i: nat, j: nat, window: int) {
    && i <= j <= |calls|
    && (forall k, l :: i <= k <= l < j ==> calls[k].now <= calls[l].now <= calls[k].now + window)
  }

  /** Two resets are more than a window apart. */
  lemma {:induction false} OneResetPerWindow(o: Options, states: seq<State>, calls: seq<Call>, i: nat, j: nat)
    requires IsRun(o, states, calls) && Within(calls, i, j, o.fastRetryWindow)
    ensures Resets(o, states, calls, i, j) <= 1
    decreases j
  {
    if i < j {
      OneResetPerWindow(o, states, calls, i, j - 1);
      if IsReset(o, states[j - 1], calls[j - 1]) && Resets(o, states, calls, i, j - 1) > 0 {
        var k := ResetAt(o, states, calls, i, j - 1);
        assert calls[k].now <= calls[j - 1].now <= calls[k].now + o.fastRetryWindow;
        CutoffStays(o, states, calls, k, j - 1);
      }
    }
  }

  lemma {:induction false} ResetAt(o: Options, states: seq<State>, calls: seq<Call>, i: nat, j: nat) returns (k: nat)
    requires |states| == |calls| + 1 && i <= j <= |calls| && Resets(o, states, calls, i, j) > 0
    ensures i <= k < j && IsReset(o, states[k], calls[k])
    decreases j
  {
    if IsReset(o, states[j - 1], calls[j - 1]) {
      k := j - 1;
    } else {
      k := ResetAt(o, states, calls, i, j - 1);
    }
  }

  lemma {:induction false} NoFastWithoutCount(o: Options, states: seq<State>, calls: seq<Call>, i: nat, j: nat)
    requires |states| == |calls| + 1 && i <= j <= |calls| && o.fastRetryCount <= 0
    ensures Fasts(o, states, calls, i, j) == 0 && Resets(o, states, calls, i, j) == 0
    decreases j
  {
    if i < j { NoFastWithoutCount(o, states, calls, i, j - 1); }
  }

  /** The number of fast retries the options allow. */
  function Budget(o: Options): nat {
    if o.fastRetryCount > 0 then o.fastRetryCount else 0
  }

  /** No burst: in every run, calls that lie within one window of time get at most twice
      the configured number of fast retries, and none if that number is not positive. */
  lemma FastRetriesAreBounded(o: Options, states: seq<State>, calls: seq<Call>, i: nat, j: nat)
    requires IsRun(o, states, calls) && Within(calls, i, j, o.fastRetryWindow)
    ensures Fasts(o, states, calls, i, j) <= 2 * Budget(o)
    ensures Resets(o, states, calls, i, j) == 0 ==> Fasts(o, states, calls, i, j) <= Budget(o)
  {
    if o.fastRetryCount > 0 {
      FastBudgetIsExact(o, states, calls, i, j);
      OneResetPerWindow(o, states, calls, i, j);
    } else {
      NoFastWithoutCount(o, states, calls, i, j);
    }
  }

  /** The documented limit of one budget per window of time holds exactly if no call in it
      opened a new window, or the counter is not above where it began. */
  lemma OneBudgetIff(o: Options, states: seq<State>, calls: seq<Call>, i: nat, j: nat)
    requires IsRun(o, states, calls) && Within(calls, i, j, o.fastRetryWindow)
    ensures Fasts(o, states, calls, i, j) <= Budget(o) <==>
              Resets(o, states, calls, i, j) == 0 || Used(o, states[j]) <= Used(o, states[i])
  {
    if o.fastRetryCount > 0 {
      FastBudgetIsExact(o, states, calls, i, j);
      OneResetPerWindow(o, states, calls, i, j);
    } else {
      NoFastWithoutCount(o, states, calls, i, j);
    }
  }

  /** The same, call by call: while the limit still holds for the calls from i on, the next
      call breaks it exactly if it is fast, a new window was opened since i and the counter
      has come back to where it was. */
  lemma NextCallBreaksIff(o: Options, states: seq<State>, calls: seq<Call>, i: nat, j: nat)
    requires IsRun(o, states, calls) && i <= j < |calls| && Within(calls, i, j + 1, o.fastRetryWindow)
    requires Fasts(o, states, calls, i, j) <= Budget(o)
    ensures Fasts(o, states, calls, i, j + 1) > Budget(o) <==>
              IsFast(o, states[j], calls[j]) && Resets(o, states, calls, i, j) > 0
              && Used(o, states[j]) == Used(o, states[i])
  {
    assert Within(calls, i, j, o.fastRetryWindow);
    OneBudgetIff(o, states, calls, i, j);
    if o.fastRetryCount > 0 {
      FastBudgetIsExact(o, states, calls, i, j);
      OneResetPerWindow(o, states, calls, i, j);
    } else {
      NoFastWithoutCount(o, states, calls, i, j + 1);
    }
  }

  /** From the call that opens a window until the window ends there are at most the
      configured number of fast retries. */
  lemma OpenedWindowIsBounded(o: Options, states: seq<State>, calls: seq<Call>, i: nat, j: nat)
    requires IsRun(o, states, calls) && Within(calls, i, j, o.fastRetryWindow) && i < j
    requires IsReset(o, states[i], calls[i])
    ensures Fasts(o, states, calls, i, j) <= o.fastRetryCount
  {
    assert Used(o, states[i]) == o.fastRetryCount;
    OneBudgetIff(o, states, calls, i, j);
  }

  // ----- Twice the budget is attained -----

  /** Calls i..j fail and are made at one instant. */
  ghost predicate Burst(calls: seq<Call>, i: nat, j: nat, now: int) {
    i <= j <= |calls| && forall k :: i <= k < j ==> calls[k].failed && calls[k].now == now
  }

  /** A burst is fast until the counter reaches the count. */
  lemma {:induction false} BurstIsFast(o: Options, states: seq<State>, calls: seq<Call>, i: nat, n: nat, now: int)
    requires IsRun(o, states, calls) && i + n <= |calls| && Burst(calls, i, i + n, now) && now != 0
    requires states[i].lastCalledTime != 0 && states[i].countsInFastRetryWindow + n <= o.fastRetryCount
    ensures Fasts(o, states, calls, i, i + n) == n
    ensures states[i + n] == states[i].(lastCalledTime := if n == 0 then states[i].lastCalledTime else now,
                                       consecutiveErrCount := states[i].consecutiveErrCount + n,
                                       countsInFastRetryWindow := states[i].countsInFastRetryWindow + n)
  {
    if n > 0 {
      BurstIsFast(o, states, calls, i, n - 1, now);
      assert states[i + n - 1 + 1] == Next(o, states[i + n - 1], calls[i + n - 1]);
    }
  }

  /** A failed call with the budget used up and the window over opens the next one. */
  lemma TurnsAround(o: Options, s: State, c: Call)
    requires o.fastRetryCount >= 1 && s.lastCalledTime != 0 && c.failed && c.now > s.fastRetryCutoffTime
    requires s.countsInFastRetryWindow == o.fastRetryCount
    ensures !IsFast(o, s, c) && IsReset(o, s, c)
    ensures Next(o, s, c).countsInFastRetryWindow == 0 && Next(o, s, c).lastCalledTime == c.now
  {
  }

  lemma FastsAdd(o: Options, states: seq<State>, calls: seq<Call>, i: nat, m: nat, j: nat)
    requires |states| == |calls| + 1 && i <= m <= j <= |calls|
    ensures Fasts(o, states, calls, i, j) == Fasts(o, states, calls, i, m) + Fasts(o, states, calls, m, j)
    decreases j
  {
    if m < j { FastsAdd(o, states, calls, i, m, j - 1); }
  }

  /** The bound is attained for every count and every window: a reset, and then, later than
      its window, 2 * count + 1 failed calls at one instant, of which all but the middle
      one are fast. */
  lemma TwoBudgetsInOneWindow(o: Options, states: seq<State>, calls: seq<Call>, i: nat, now: int)
    requires o.fastRetryCount >= 1 && o.fastRetryWindow >= 0
    requires IsRun(o, states, calls) && i < |calls| && IsReset(o, states[i], calls[i]) && calls[i].now != 0
    requires now > calls[i].now + o.fastRetryWindow && now != 0
    requires |calls| == i + 1 + 2 * o.fastRetryCount + 1 && Burst(calls, i + 1, |calls|, now)
    ensures Within(calls, i + 1, |calls|, o.fastRetryWindow)
    ensures Fasts(o, states, calls, i + 1, |calls|) == 2 * o.fastRetryCount
  {
    var n := o.fastRetryCount;
    var m := i + 1 + n;
    assert states[i + 1] == Next(o, states[i], calls[i]);
    BurstIsFast(o, states, calls, i + 1, n, now);
    assert states[m + 1] == Next(o, states[m], calls[m]);
    TurnsAround(o, states[m], calls[m]);
    hide Next, IsFast, IsReset;
    BurstIsFast(o, states, calls, m + 1, n, now);
    FastsAdd(o, states, calls, i + 1, m, |calls|);
    FastsAdd(o, states, calls, m, m + 1, |calls|);
    assert Fasts(o, states, calls, m, m) == 0;
    assert Fasts(o, states, calls, m, m + 1) == 0;
  }

  /** Such runs exist: the first call, count failing ones that use up the first budget and
      open a window, then the burst. */
  lemma TwoBudgetsHappen(o: Options, n: nat) returns (states: seq<State>, calls: seq<Call>, i: nat)
    requires n == o.fastRetryCount >= 1 && o.fastRetryWindow >= 0
    ensures IsRun(o, states, calls) && Within(calls, i + 1, |calls|, o.fastRetryWindow)
    ensures i + 1 <= |calls| && Fasts(o, states, calls, i + 1, |calls|) == 2 * o.fastRetryCount
  {
    i := n;
    var later := 2 + o.fastRetryWindow;
    calls := seq(2 * n + n + 2, k => Call(if k <= n then 1 else later, 0, true, 0.0));
    states := StatesOf(o, calls);
    assert states[1] == Next(o, states[0], calls[0]);
    assert states[1] == INIT.(lastCalledTime := 1);
    assert Burst(calls, 1, n, 1);
    BurstIsFast(o, states, calls, 1, n - 1, 1);
    assert Burst(calls, n + 1, |calls|, later);
    TwoBudgetsInOneWindow(o, states, calls, n, later);
  }

  /** The states along given calls. */
  function StatesOf(o: Options, calls: seq<Call>): (states: seq<State>)
    ensures IsRun(o, states, calls)
  {
    if calls == [] then [INIT]
    else
      var n := |calls| - 1;
      var before := StatesOf(o, calls[..n]);
      before + [Next(o, before[n], calls[n])]
  }

  // ----- Which delay a call gets -----

  /** The counter holds the length of the streak of failures that ends before call j, the very
      first call not counted. */
  lemma {:induction false} ErrCountIsStreak(o: Options, states: seq<State>, calls: seq<Call>, j: nat)
    requires IsRun(o, states, calls) && 1 <= j <= |calls| && (forall i :: 0 <= i < |calls| ==> calls[i].now != 0)
    ensures var n := states[j].consecutiveErrCount;
            && states[j].lastCalledTime != 0 && n <= j - 1
            && (forall k :: j - n <= k < j ==> calls[k].failed)
            && (n < j - 1 ==> !calls[j - 1 - n].failed)
  {
    assert states[j - 1 + 1] == Next(o, states[j - 1], calls[j - 1]);
    if j > 1 { ErrCountIsStreak(o, states, calls, j - 1); }
  }

  /** The first call and every call after a success get the plain duration. */
  lemma PlainDelay(o: Options, states: seq<State>, calls: seq<Call>, j: nat)
    requires IsRun(o, states, calls) && j < |calls| && (j == 0 || !calls[j].failed)
    ensures Delay(o, states[j], calls[j]) == o.duration
  {
    hide Jitter, ExponentialDelay;
  }

  /** A fast retry waits the fast delay with its jitter. */
  lemma FastDelay(o: Options, s: State, c: Call)
    requires IsFast(o, s, c) && o.fastRetryDelay >= 0 && 0.0 <= c.random < 1.0
    ensures Rounds(Delay(o, s, c), Jittered(o.fastRetryDelay, FactorOf(o.fastRetryJitter), c.random))
  {
    hide Jitter, Jittered, Rounds;
    JitterIsBounded(o.fastRetryDelay, o.fastRetryJitter, c.random);
  }

  /** What an exponential delay grows from: the configured initial duration at the first failure
      of a streak, else the previous delay; one second if that is zero. */
  function StartOf(o: Options, calls: seq<Call>, j: nat): int
    requires j < |calls|
  {
    if (j <= 1 || !calls[j - 1].failed) && o.initDurationIfFail != 0 then o.initDurationIfFail
    else if calls[j].previous != 0 then calls[j].previous
    else SECOND
  }

  /** A failed call that is not fast: its delay is the start, times the factor if there is one,
      with the jitter if there is one, unless that is more than the maximum. */
  lemma DelayGrowsFromStart(o: Options, states: seq<State>, calls: seq<Call>, j: nat)
    requires IsRun(o, states, calls) && 1 <= j < |calls| && (forall i :: 0 <= i < |calls| ==> calls[i].now != 0)
    requires calls[j].failed && !IsFast(o, states[j], calls[j]) && 0.0 <= calls[j].random < 1.0
    ensures var base := StartOf(o, calls, j);
            var grown := if o.factor != 0.0 then Grown(base, o.factor) else base;
            var d := Delay(o, states[j], calls[j]);
            && (o.jitter <= 0.0 ==> d == if o.maxDuration > 0 && grown > o.maxDuration then o.maxDuration else grown)
            && (o.jitter > 0.0 && grown >= 0 ==>
                  var exact := Jittered(grown, o.jitter, calls[j].random);
                  if o.maxDuration > 0 && exact >= (o.maxDuration + 1) as real then d == o.maxDuration
                  else Rounds(d, exact))
  {
    hide Jitter, Grown, Jittered;
    ErrCountIsStreak(o, states, calls, j);
    var base := StartOf(o, calls, j);
    assert states[j].consecutiveErrCount == 0 <==> j == 1 || !calls[j - 1].failed by {
      if j > 1 && calls[j - 1].failed { assert states[j].consecutiveErrCount != 0; }
    }
    var grown := if o.factor != 0.0 then Grown(base, o.factor) else base;
    if grown >= 0 { JitterIsBounded(grown, o.jitter, calls[j].random); }
  }

  // ----- Exponential delays -----

  lemma DelayIsCapped(o: Options, s: State, c: Call)
    requires o.maxDuration > 0 && KindOf(o, s, c) == Exponential
    ensures Delay(o, s, c) <= o.maxDuration
  {
    hide Jitter, Grown;
  }

  lemma GrowthAtLeast(d: int, factor: real, k: int)
    requires d >= 0 && factor >= k as real && k >= 0
    ensures Grown(d, factor) >= k * d
  {
    Product(d as real, factor - k as real);
    assert d as real * factor >= (k * d) as real;
  }

  /** While attempts keep failing and fast retries are used up, a factor of at least k
      multiplies the delay by at least k until it meets the cap. */
  lemma DelayGrows(o: Options, s: State, c: Call, k: int)
    requires KindOf(o, s, c) == Exponential && s.consecutiveErrCount > 0 && c.previous > 0
    requires o.factor >= k as real && k >= 1 && 0.0 <= c.random < 1.0
    ensures Delay(o, s, c) >= k * c.previous || (o.maxDuration > 0 && Delay(o, s, c) == o.maxDuration)
  {
    hide Grown, Jitter;
    GrowthAtLeast(c.previous, o.factor, k);
    var grown := Grown(c.previous, o.factor);
    assert grown >= 0;
    JitterIsBounded(grown, o.jitter, c.random);
  }

  function Pow(k: int, n: nat): int {
    if n == 0 then 1 else k * Pow(k, n - 1)
  }

  /** n consecutive exponential delays, each fed back as the next call's previous delay
      the way BackoffUntil does, grow by at least the n-th power of k or meet the cap. */
  lemma {:induction false} DelayGrowsGeometrically(o: Options, states: seq<State>, calls: seq<Call>, i: nat,
                                                   n: nat, k: int)
    requires IsRun(o, states, calls) && i + n <= |calls| && i < |calls|
    requires o.factor >= k as real && k >= 1 && calls[i].previous > 0
    requires o.maxDuration > 0 ==> calls[i].previous <= o.maxDuration
    requires forall j :: i <= j < i + n ==>
               KindOf(o, states[j], calls[j]) == Exponential && states[j].consecutiveErrCount > 0
               && 0.0 <= calls[j].random < 1.0
    requires forall j :: i <= j && j + 1 < i + n ==> calls[j + 1].previous == Delay(o, states[j], calls[j])
    requires n > 0
    ensures var d := Delay(o, states[i + n - 1], calls[i + n - 1]);
            d > 0 && (d >= Pow(k, n) * calls[i].previous || (o.maxDuration > 0 && d == o.maxDuration))
    decreases n
  {
    hide Delay, KindOf, Next, Pow;
    var j := i + n - 1;
    assert KindOf(o, states[j], calls[j]) == Exponential;
    if n == 1 {
      PowStep(k, 0);
      DelayGrows(o, states[j], calls[j], k);
      Positive(k, calls[j].previous);
    } else {
      DelayGrowsGeometrically(o, states, calls, i, n - 1, k);
      var d := Delay(o, states[j - 1], calls[j - 1]);
      assert calls[j - 1 + 1].previous == d;
      DelayGrows(o, states[j], calls[j], k);
      Positive(k, d);
      if d >= Pow(k, n - 1) * calls[i].previous {
        PowStep(k, n - 1);
        Scaled(k, d, Pow(k, n - 1), calls[i].previous);
      } else {
        DelayIsCapped(o, states[j], calls[j]);
      }
    }
  }

  lemma PowStep(k: int, n: nat)
    ensures Pow(k, n + 1) == k * Pow(k, n) && Pow(k, 0) == 1
  {
  }

  lemma Scaled(k: int, d: int, a: int, p: int)
    requires k >= 1 && d >= a * p
    ensures k * d >= k * a * p
  {
    assert k * d - k * (a * p) == k * (d - a * p);
    assert k * (a * p) == k * a * p;
  }

  lemma Positive(k: int, d: int)
    requires k >= 1 && d > 0
    ensures k * d >= d
  {
  }
}
