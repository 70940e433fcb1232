/**
 The in-process token-bucket rate limiter (src/rate_limit.rs), over real numbers: instants
 are seconds on the process clock, and `f64` rounding is not modelled.
 */
module RateLimit {
  import opened Numbers
  import opened Options
  import opened TokenBucket

  datatype Bucket = Bucket(tokens: real, lastRefill: real, capacity: real, refillPerSec: real)


  /** The tokens a bucket holds at `now`; `saturating_duration_since` is `Advance`. */
  function Level(b: Bucket, now: real): real {
    RMin(b.tokens + Advance(now, b.lastRefill) * b.refillPerSec, b.capacity)
  }

  predicate Admits(b: Bucket, now: real) {
    Level(b, now) >= 1.0
  }

  /** The bucket as a call at `now` leaves it. */
  function AfterCall(b: Bucket, now: real): Bucket {
    b.(tokens := if Admits(b, now) then Level(b, now) - 1.0 else Level(b, now), lastRefill := now)
  }

  /** The smallest integer not below `x`, for `f64::ceil`. */
  function Ceil(x: real): (c: int)
    ensures (c - 1) as real < x <= c as real
  {
    if x.Floor as real == x then x.Floor else x.Floor + 1
  }

  /** `retry_after_secs` on an existing bucket. */
  function RetryAfter(b: Bucket, now: real): Option<nat>
    requires b.refillPerSec > 0.0
  {
    if Admits(b, now) then None
    else
      var wait := Ceil((1.0 - Level(b, now)) / b.refillPerSec);
      Some(if wait < 1 then 1 else wait)
  }

  // ---------------------------------------------------------------- call histories

  /**
   The calls on one key so far: the capacity its bucket was created with, the tokens refilled
   by each instant, and when the calls came.
   */
  datatype History = History(capacity: real, refilled: real -> real, times: seq<real>)

  /** The call times on the refill clock. */
  function Ticks(h: History): (ticks: seq<real>)
    ensures |ticks| == |h.times|
  {
    seq(|h.times|, i requires 0 <= i < |h.times| => h.refilled(h.times[i]))
  }

  /** The history's refill clock runs at the given rate. */
  ghost predicate RunsAt(h: History, rate: real) {
    rate > 0.0 && forall t :: h.refilled(t) == rate * t
  }

  /** The bucket is what the calls so far have made of it. */
  ghost predicate Explains(h: History, b: Bucket) {
    && b.capacity == h.capacity >= 1.0
    && RunsAt(h, b.refillPerSec)
    && h.times != [] && b.lastRefill == h.times[|h.times| - 1]
    && b.tokens == TokensAfter(h.capacity, Ticks(h))
  }

  /** Whether the key's next call, at `now`, is to be admitted. */
  predicate NextAdmitted(h: History, now: real) {
    LevelAt(h.capacity, Ticks(h), h.refilled(now)) >= 1.0
  }

  function Extend(h: History, now: real): History {
    h.(times := h.times + [now])
  }

  lemma Scales(rate: real, a: real, b: real)
    requires rate > 0.0
    ensures rate * a - rate * b == rate * (a - b) == (a - b) * rate
    ensures a > b <==> rate * a > rate * b
  {
    if a > b {
      assert rate * (a - b) > 0.0;
    } else if a < b {
      assert rate * (b - a) > 0.0;
    }
  }

  lemma AdvanceScales(rate: real, now: real, last: real)
    requires rate > 0.0
    ensures Advance(now, last) * rate == Advance(rate * now, rate * last)
  {
    Scales(rate, now, last);
  }

  /** The bucket's own level is the one its call history gives. */
  lemma {:induction false} LevelIsExplained(h: History, b: Bucket, now: real)
    requires Explains(h, b)
    ensures Level(b, now) == LevelAt(h.capacity, Ticks(h), h.refilled(now))
  {
    var ticks := Ticks(h);
    assert ticks[|ticks| - 1] == h.refilled(b.lastRefill);
    AdvanceScales(b.refillPerSec, now, b.lastRefill);
    assert Advance(now, b.lastRefill) * b.refillPerSec == Advance(h.refilled(now), ticks[|ticks| - 1]);
  }

  lemma {:induction false} TicksExtend(h: History, now: real)
    ensures Ticks(Extend(h, now)) == Ticks(h) + [h.refilled(now)]
  {
    var g := Extend(h, now);
    forall i | 0 <= i < |h.times| ensures Ticks(g)[i] == Ticks(h)[i] {
      assert g.times[i] == h.times[i];
    }
  }

  /** A call is decided as its history says, and the bucket it leaves is explained by the longer history. */
  lemma {:induction false} CallIsExplained(h: History, b: Bucket, now: real)
    requires Explains(h, b)
    ensures Admits(b, now) <==> NextAdmitted(h, now)
    ensures Explains(Extend(h, now), AfterCall(b, now))
  {
    LevelIsExplained(h, b, now);
    TicksExtend(h, now);
    LeavesTokens(h, now);
  }

  lemma {:induction false} LeavesTokens(h: History, now: real)
    ensures var level := LevelAt(h.capacity, Ticks(h), h.refilled(now));
      TokensAfter(h.capacity, Ticks(h) + [h.refilled(now)]) == if level >= 1.0 then level - 1.0 else level
  {
    assert (Ticks(h) + [h.refilled(now)])[..|h.times|] == Ticks(h);
  }

  function FreshBucket(capacity: real, rate: real, now: real): Bucket {
    Bucket(capacity, now, capacity, rate)
  }

  /** The first call on a key finds its bucket full. */
  lemma {:induction false} FirstCallIsExplained(h: History, rate: real, now: real)
    requires h.capacity >= 1.0 && RunsAt(h, rate) && h.times == []
    ensures var b := FreshBucket(h.capacity, rate, now);
      && (Admits(b, now) <==> NextAdmitted(h, now))
      && Explains(Extend(h, now), AfterCall(b, now))
  {
    var b := FreshBucket(h.capacity, rate, now);
    assert Advance(now, now) * rate == 0.0;
    assert Level(b, now) == h.capacity;
    TicksExtend(h, now);
    LeavesTokens(h, now);
  }

  // ---------------------------------------------------------------- what a history admits

  /** How many of the calls `i`, ..., `j - 1` on the key were admitted. */
  function AdmittedBetween(h: History, i: nat, j: nat): nat
    requires i <= j <= |h.times|
  {
    Admissions(h.capacity, Ticks(h), i, j)
  }

  /** Tokens refilled from call `i` until `now`. */
  function RefilledSince(h: History, i: nat, now: real): real
    requires i < |h.times|
  {
    Elapsed(Ticks(h), i, h.refilled(now))
  }

  /** A clock on which steps forward and sums are those of the seconds, scaled. */
  ghost predicate Linear(clock: real -> real) {
    clock(0.0) == 0.0 && forall a, b :: LinearAt(clock, a, b)
  }

  ghost predicate LinearAt(clock: real -> real, a: real, b: real) {
    Advance(clock(a), clock(b)) == clock(Advance(a, b)) && clock(a + b) == clock(a) + clock(b)
  }

  lemma Distributes(rate: real, a: real, b: real)
    ensures rate * (a + b) == rate * a + rate * b
  {}

  lemma {:induction false} RefillIsLinear(h: History, rate: real)
    requires RunsAt(h, rate)
    ensures Linear(h.refilled)
  {
    assert h.refilled(0.0) == rate * 0.0 == 0.0;
    forall a, b ensures LinearAt(h.refilled, a, b) {
      AdvanceScales(rate, a, b);
      Distributes(rate, a, b);
      assert h.refilled(Advance(a, b)) == rate * Advance(a, b);
      assert h.refilled(a + b) == rate * (a + b);
    }
  }

  lemma {:induction false} ElapsedScales(clock: real -> real, times: seq<real>, ticks: seq<real>, i: nat, now: real)
    requires Linear(clock) && |ticks| == |times| && i < |times|
    requires forall k :: 0 <= k < |times| ==> ticks[k] == clock(times[k])
    ensures Elapsed(ticks, i, clock(now)) == clock(Elapsed(times, i, now))
    decreases |times|
  {
    var n := |times| - 1;
    assert LinearAt(clock, now, times[n]);
    if i < n {
      ElapsedScales(clock, times[..n], ticks[..n], i, times[n]);
      assert LinearAt(clock, Advance(now, times[n]), Elapsed(times[..n], i, times[n]));
    }
  }

  /** Refill is the rate times the seconds the clock moved forward: without steps back, rate * (now - t_i). */
  lemma {:induction false} RefilledSinceInSeconds(h: History, rate: real, i: nat, now: real)
    requires RunsAt(h, rate) && i < |h.times|
    ensures RefilledSince(h, i, now) == rate * Elapsed(h.times, i, now)
    ensures Monotone(h.times, now) ==> Elapsed(h.times, i, now) == now - h.times[i]
  {
    RefillIsLinear(h, rate);
    ElapsedScales(h.refilled, h.times, Ticks(h), i, now);
    assert h.refilled(Elapsed(h.times, i, now)) == rate * Elapsed(h.times, i, now);
    if Monotone(h.times, now) {
      MonotoneElapsed(h.times, i, now);
    }
  }

  /** Capacity + refill since call i - admissions since call i; just the capacity for the empty window. */
  function WindowHeadroom(h: History, i: nat, now: real): real
    requires i <= |h.times|
  {
    if i == |h.times| then h.capacity
    else h.capacity + RefilledSince(h, i, now) - AdmittedBetween(h, i, |h.times|) as real
  }

  /** On any clock, the bucket's level is the least headroom over all windows of its call history. */
  lemma {:induction false} LevelIsMinOverWindows(h: History, b: Bucket, now: real) returns (w: nat)
    requires Explains(h, b)
    ensures forall i :: 0 <= i <= |h.times| ==> Level(b, now) <= WindowHeadroom(h, i, now)
    ensures w <= |h.times| && Level(b, now) == WindowHeadroom(h, w, now)
  {
    LevelIsExplained(h, b, now);
    w := LeastWindow(h, now);
  }

  lemma {:induction false} LeastWindow(h: History, now: real) returns (w: nat)
    ensures var level := LevelAt(h.capacity, Ticks(h), h.refilled(now));
      && w <= |h.times| && level == WindowHeadroom(h, w, now)
      && forall i :: 0 <= i <= |h.times| ==> level <= WindowHeadroom(h, i, now)
  {
    w := LevelIsLeastHeadroom(h.capacity, Ticks(h), h.refilled(now));
    forall i | 0 <= i <= |h.times|
      ensures WindowHeadroom(h, i, now) == Headroom(h.capacity, Ticks(h), i, h.refilled(now))
    {}
  }

  /** Admitting one more call at `now` would break the bound of the window from call `i`. */
  predicate WindowFull(h: History, i: nat, now: real)
    requires i < |h.times|
  {
    (AdmittedBetween(h, i, |h.times|) + 1) as real > h.capacity + RefilledSince(h, i, now)
  }

  /** Refusal is never gratuitous: on any clock, a call is refused iff admitting it would break some window's bound. */
  lemma {:induction false} RefusedIffSomeWindowFull(h: History, now: real)
    requires h.capacity >= 1.0
    ensures !NextAdmitted(h, now) <==> exists i :: 0 <= i < |h.times| && WindowFull(h, i, now)
  {
    AdmittedIffEveryWindowAllows(h.capacity, Ticks(h), h.refilled(now));
    forall i | 0 <= i < |h.times|
      ensures WindowFull(h, i, now) <==> !WindowAllows(h.capacity, Ticks(h), i, h.refilled(now))
    {}
  }

  /**
   On any clock, admissions over a stretch of calls on a key stay within capacity plus what the
   stretch refills: the rate times the seconds the clock moved forward.
   */
  lemma {:induction false} NoWindowExceedsBound(h: History, rate: real, i: nat, j: nat)
    requires h.capacity >= 1.0 && RunsAt(h, rate) && i <= j < |h.times|
    ensures AdmittedBetween(h, i, j + 1) as real <= h.capacity + rate * Between(h.times, i, j)
  {
    WindowBound(h.capacity, Ticks(h), i, j);
    BetweenScales(h, rate, i, j);
    assert h.refilled(Between(h.times, i, j)) == rate * Between(h.times, i, j);
  }

  lemma {:induction false} BetweenScales(h: History, rate: real, i: nat, j: nat)
    requires RunsAt(h, rate) && i <= j < |h.times|
    ensures Between(Ticks(h), i, j) == h.refilled(Between(h.times, i, j))
  {
    RefillIsLinear(h, rate);
    if i < j {
      ElapsedScales(h.refilled, h.times[..j], Ticks(h)[..j], i, h.times[j]);
    }
  }

  /** Without steps back the bound is capacity + rate * length. */
  lemma {:induction false} MonotoneBetween(times: seq<real>, i: nat, j: nat)
    requires i <= j < |times| && Monotone(times[..j], times[j])
    ensures Between(times, i, j) == times[j] - times[i]
  {
    if i < j {
      MonotoneElapsed(times[..j], i, times[j]);
      assert times[..j][i] == times[i];
    }
  }

  /** With one it is not: on a clock that steps back by a second, a bucket of one admits three calls in one second. */
  lemma {:induction false} StepBackAdmitsMore() returns (h: History)
    ensures h.capacity == 1.0 && RunsAt(h, 1.0) && h.times == [0.0, 1.0, 0.0, 1.0]
    ensures AdmittedBetween(h, 0, 4) == 3
    ensures AdmittedBetween(h, 0, 4) as real > h.capacity + 1.0 * (h.times[3] - h.times[0])
  {
    h := History(1.0, t => 1.0 * t, [0.0, 1.0, 0.0, 1.0]);
    var ticks: seq<real> := [0.0, 1.0, 0.0, 1.0];
    assert Ticks(h) == ticks;
    FourCalls(ticks);
  }

  lemma {:induction false} FourCalls(ticks: seq<real>)
    requires ticks == [0.0, 1.0, 0.0, 1.0]
    ensures Admissions(1.0, ticks, 0, 4) == 3
  {
    var one, two, three := ticks[..1], ticks[..2], ticks[..3];
    assert one[..0] == [] && two[..1] == one && three[..2] == two;
    assert TokensAfter(1.0, one) == 0.0;
    assert LevelAt(1.0, one, ticks[1]) == 1.0;
    assert TokensAfter(1.0, two) == 0.0;
    assert LevelAt(1.0, two, ticks[2]) == 0.0;
    assert TokensAfter(1.0, three) == 0.0;
    assert LevelAt(1.0, three, ticks[3]) == 1.0;
    assert Admissions(1.0, ticks, 0, 1) == 1;
    assert Admissions(1.0, ticks, 0, 2) == 2;
    assert Admissions(1.0, ticks, 0, 3) == 2;
  }

  /** The bound by elapsed time, for the stretch from call `i` to call `j`. */
  ghost predicate ElapsedBoundAt(h: History, rate: real, i: nat, j: nat)
    requires i <= j < |h.times|
  {
    AdmittedBetween(h, i, j + 1) as real <= h.capacity + rate * (h.times[j] - h.times[i])
  }

  ghost predicate ElapsedBound(h: History, rate: real) {
    forall i, j :: 0 <= i <= j < |h.times| ==> ElapsedBoundAt(h, rate, i, j)
  }

  /** A key's history at a rate, with capacity for a call. */
  ghost predicate Runs(h: History, rate: real, times: seq<real>) {
    h.capacity >= 1.0 && RunsAt(h, rate) && h.times == times
  }

  ghost predicate NeverStepsBack(times: seq<real>) {
    forall i, j :: 0 <= i <= j < |times| ==> times[i] <= times[j]
  }

  /** The bound by elapsed time holds for call times, at every capacity and rate, iff they never step back. */
  lemma {:induction false} ElapsedBoundIff(times: seq<real>)
    ensures (forall h, rate :: Runs(h, rate, times) ==> ElapsedBound(h, rate)) <==> NeverStepsBack(times)
  {
    if NeverStepsBack(times) {
      forall h, rate | Runs(h, rate, times) ensures ElapsedBound(h, rate) {
        InOrderBound(h, rate);
      }
    } else {
      var i, j :| 0 <= i <= j < |times| && times[i] > times[j];
      var h, rate := StepBackBreaksBound(times, i, j);
      assert Runs(h, rate, times) && !ElapsedBoundAt(h, rate, i, j);
    }
  }

  lemma {:induction false} InOrderBound(h: History, rate: real)
    requires h.capacity >= 1.0 && RunsAt(h, rate) && NeverStepsBack(h.times)
    ensures ElapsedBound(h, rate)
  {
    forall i, j | 0 <= i <= j < |h.times| ensures ElapsedBoundAt(h, rate, i, j) {
      InOrderBoundAt(h, rate, i, j);
    }
  }

  lemma {:induction false} InOrderBoundAt(h: History, rate: real, i: nat, j: nat)
    requires h.capacity >= 1.0 && RunsAt(h, rate) && NeverStepsBack(h.times) && i <= j < |h.times|
    ensures ElapsedBoundAt(h, rate, i, j)
  {
    var between := Between(h.times, i, j);
    NoWindowExceedsBound(h, rate, i, j);
    MonotoneBetween(h.times, i, j);
    SameProduct(rate, between, h.times[j] - h.times[i]);
  }

  lemma SameProduct(rate: real, a: real, b: real)
    requires a == b
    ensures rate * a == rate * b
  {}

  /** Across a step back the bound promises less than nothing, once the rate is high enough. */
  lemma {:induction false} StepBackBreaksBound(times: seq<real>, i: nat, j: nat) returns (h: History, rate: real)
    requires i <= j < |times| && times[i] > times[j]
    ensures Runs(h, rate, times) && !ElapsedBoundAt(h, rate, i, j)
  {
    var back := times[i] - times[j];
    rate := 2.0 / back;
    var r := rate;
    h := History(1.0, t => r * t, times);
    assert rate * back == 2.0;
    assert rate * (times[j] - times[i]) == -(rate * back);
  }

  /** No call comes more than `b` seconds before the previous one. */
  ghost predicate StepsBackAtMost(times: seq<real>, b: real) {
    forall k, l :: 0 <= k && l == k + 1 < |times| ==> times[k] - times[l] <= b
  }

  /** A history of a key of a limiter with this capacity and window. */
  ghost predicate LimiterRuns(h: History, capacity: nat, windowSecs: nat)
    requires windowSecs >= 1
  {
    h.capacity == AtLeastOne(capacity) as real && RunsAt(h, RefillRate(capacity, windowSecs))
  }

  lemma {:induction false} NoStepsBack(times: seq<real>, i: nat, j: nat)
    requires StepsBackAtMost(times, 0.0) && i <= j < |times|
    ensures times[i] <= times[j]
    decreases j
  {
    if i < j {
      NoStepsBack(times, i, j - 1);
    }
  }

  /**
   For any one limiter, the bound by elapsed time holds on every clock whose steps back are at
   most `b` seconds iff `b` is zero: however small, a step back after a burst breaks it.
   */
  lemma {:induction false} LimiterBoundIff(capacity: nat, windowSecs: nat, b: real)
    requires windowSecs >= 1 && b >= 0.0
    ensures (forall h :: LimiterRuns(h, capacity, windowSecs) && StepsBackAtMost(h.times, b) ==>
        ElapsedBound(h, RefillRate(capacity, windowSecs))) <==> b == 0.0
  {
    RefillRateFillsWindow(capacity, windowSecs);
    var rate := RefillRate(capacity, windowSecs);
    if b == 0.0 {
      forall h | LimiterRuns(h, capacity, windowSecs) && StepsBackAtMost(h.times, b) ensures ElapsedBound(h, rate) {
        forall i, j | 0 <= i <= j < |h.times| ensures h.times[i] <= h.times[j] {
          NoStepsBack(h.times, i, j);
        }
        InOrderBound(h, rate);
      }
    } else {
      var h := BurstThenStepBack(capacity, windowSecs, b);
    }
  }

  /** As many calls as the bucket holds, and then one `b` seconds earlier. */
  lemma {:induction false} BurstThenStepBack(capacity: nat, windowSecs: nat, b: real) returns (h: History)
    requires windowSecs >= 1 && b > 0.0
    ensures LimiterRuns(h, capacity, windowSecs) && StepsBackAtMost(h.times, b)
    ensures !ElapsedBound(h, RefillRate(capacity, windowSecs))
  {
    RefillRateFillsWindow(capacity, windowSecs);
    var n, rate := AtLeastOne(capacity), RefillRate(capacity, windowSecs);
    var times := seq(n, _ => b) + [0.0];
    h := History(n as real, t => rate * t, times);
    var ticks := Ticks(h);
    forall k | 0 <= k < n ensures ticks[k] == rate * b {
      assert times[k] == b;
    }
    BurstAdmitted(n, ticks, n, rate * b);
    assert AdmittedBetween(h, 0, n + 1) >= n;
    Scales(rate, b, 0.0);
    assert !ElapsedBoundAt(h, rate, 0, n);
  }

  // ---------------------------------------------------------------- the retry hint

  /** A call `v` seconds after `now`, with none in between, is admitted. */
  predicate AdmitsAfter(b: Bucket, now: real, v: nat) {
    Admits(b, now + v as real)
  }

  /** How far the query's clock is behind the key's last call. */
  function Behind(b: Bucket, now: real): real {
    Advance(b.lastRefill, now)
  }

  /** Waiting adds refill, up to the capacity, once the clock has caught up. */
  lemma {:induction false} AdmitsAfterIff(b: Bucket, now: real, v: nat)
    requires b.refillPerSec > 0.0 && b.capacity >= 1.0 && !Admits(b, now)
    ensures AdmitsAfter(b, now, v) <==> (v as real - Behind(b, now)) * b.refillPerSec >= 1.0 - Level(b, now)
  {
    var rate, later := b.refillPerSec, now + v as real;
    var waited, ahead := Advance(now, b.lastRefill), v as real - Behind(b, now);
    assert Advance(later, b.lastRefill) == if waited + ahead > 0.0 then waited + ahead else 0.0;
    Splits(rate, waited, ahead);
    NotNegative(rate, waited);
    if waited + ahead <= 0.0 {
      assert waited == 0.0;
      Scales(rate, 0.0, ahead);
    }
  }

  lemma NotNegative(rate: real, a: real)
    requires rate > 0.0 && a >= 0.0
    ensures a * rate >= 0.0
  {}

  lemma Splits(r: real, a: real, b: real)
    ensures (a + b) * r == a * r + b * r
  {}

  lemma {:induction false} CeilIsLeast(deficit: real, rate: real, v: nat)
    requires deficit > 0.0 && rate > 0.0
    ensures v as real * rate >= deficit <==> v >= Ceil(deficit / rate)
  {
    var q := deficit / rate;
    assert rate * q == deficit;
    Scales(rate, q, v as real);
    assert v as real >= q <==> v >= Ceil(q);
  }

  lemma {:induction false} LevelInRange(h: History, b: Bucket, now: real)
    requires Explains(h, b)
    ensures 0.0 <= Level(b, now) <= b.capacity
  {
    LevelIsExplained(h, b, now);
    TokensInRange(h.capacity, Ticks(h));
  }

  /**
   The hint is given exactly when a call would be refused. No call in fewer seconds, with none
   in between, is admitted; and one in exactly that many is, iff the rounding makes up for how
   far the query's clock is behind the key's last call. It never exceeds the window.
   */
  lemma {:induction false} RetryAfterIsLeast(h: History, b: Bucket, windowSecs: nat, now: real)
    requires Explains(h, b) && b.refillPerSec * windowSecs as real == b.capacity
    ensures RetryAfter(b, now).Some? <==> !Admits(b, now)
    ensures RetryAfter(b, now).Some? ==> var wait := RetryAfter(b, now).value;
      && 1 <= wait <= windowSecs
      && (forall v: nat :: v < wait ==> !AdmitsAfter(b, now, v))
      && (AdmitsAfter(b, now, wait) <==> (wait as real - Behind(b, now)) * b.refillPerSec >= 1.0 - Level(b, now))
  {
    if !Admits(b, now) {
      LevelInRange(h, b, now);
      var deficit, wait := 1.0 - Level(b, now), RetryAfter(b, now).value;
      LeastWait(deficit, b.refillPerSec, windowSecs);
      AdmitsAfterIff(b, now, wait);
      forall v: nat | v < wait ensures !AdmitsAfter(b, now, v) {
        NoneSooner(b, now, v);
      }
    }
  }

  lemma {:induction false} NoneSooner(b: Bucket, now: real, v: nat)
    requires b.refillPerSec > 0.0 && b.capacity >= 1.0 && !Admits(b, now)
    requires v < Ceil((1.0 - Level(b, now)) / b.refillPerSec)
    ensures !AdmitsAfter(b, now, v)
  {
    AdmitsAfterIff(b, now, v);
    CeilIsLeast(1.0 - Level(b, now), b.refillPerSec, v);
    LessTime(b.refillPerSec, v as real - Behind(b, now), v as real);
  }

  lemma LessTime(rate: real, a: real, b: real)
    requires rate > 0.0 && a <= b
    ensures a * rate <= b * rate
  {
    Scales(rate, a, b);
  }

  /** On a clock that has not stepped back the hint is exact: the least number of seconds after which a call is admitted. */
  lemma {:induction false} RetryAfterIsExact(h: History, b: Bucket, windowSecs: nat, now: real, v: nat)
    requires Explains(h, b) && b.refillPerSec * windowSecs as real == b.capacity
    requires now >= b.lastRefill && RetryAfter(b, now).Some?
    ensures AdmitsAfter(b, now, v) <==> RetryAfter(b, now).value <= v
  {
    LevelInRange(h, b, now);
    var deficit := 1.0 - Level(b, now);
    LeastWait(deficit, b.refillPerSec, windowSecs);
    AdmitsAfterIff(b, now, v);
    CeilIsLeast(deficit, b.refillPerSec, v);
  }

  /** Behind it the hint can be too early: asked five seconds before the call that emptied the bucket, it promises a token in one. */
  lemma {:induction false} HintTooEarly() returns (h: History, b: Bucket)
    ensures h.times == [10.0] && Explains(h, b) && b.capacity == 1.0 && b.refillPerSec == 1.0
    ensures RetryAfter(b, 5.0) == Some(1) && !AdmitsAfter(b, 5.0, 1)
  {
    var before := History(1.0, t => 1.0 * t, []);
    h, b := Extend(before, 10.0), AfterCall(FreshBucket(1.0, 1.0, 10.0), 10.0);
    assert RunsAt(before, 1.0);
    FirstCallIsExplained(before, 1.0, 10.0);
    assert Level(FreshBucket(1.0, 1.0, 10.0), 10.0) == 1.0;
    assert b.tokens == 0.0 && b.lastRefill == 10.0;
    assert Level(b, 5.0) == 0.0 && Level(b, 6.0) == 0.0;
    assert Ceil(1.0) == 1;
  }

  lemma {:induction false} LeastWait(deficit: real, rate: real, windowSecs: nat)
    requires 0.0 < deficit <= 1.0 && rate > 0.0 && rate * windowSecs as real >= 1.0
    ensures 1 <= Ceil(deficit / rate) <= windowSecs
  {
    CeilIsLeast(deficit, rate, 0);
    CeilIsLeast(deficit, rate, windowSecs);
  }

  // ---------------------------------------------------------------- the limiter

  /** `capacity / window_secs`. */
  function RefillRate(capacity: nat, windowSecs: nat): (r: real)
    requires windowSecs >= 1
  {
    AtLeastOne(capacity) as real / windowSecs as real
  }

  lemma RefillRateFillsWindow(capacity: nat, windowSecs: nat)
    requires windowSecs >= 1
    ensures RefillRate(capacity, windowSecs) > 0.0
    ensures RefillRate(capacity, windowSecs) * windowSecs as real == AtLeastOne(capacity) as real
  {}

  /** What a key's first call starts from. */
  function NewHistory(capacity: nat, windowSecs: nat): History
    requires windowSecs >= 1
  {
    var rate := RefillRate(capacity, windowSecs);
    History(AtLeastOne(capacity) as real, t => rate * t, [])
  }

  /** The limiter: one bucket per key, created by the key's first call. */
  class RateLimiter {
    const capacity: nat
    const windowSecs: nat
    var buckets: map<string, Bucket>
    ghost var calls: map<string, History> // what each key's bucket has seen

    ghost predicate Valid()
      reads this
    {
      && capacity >= 1 && windowSecs >= 1
      && calls.Keys == buckets.Keys
      && forall k :: k in buckets ==> KeyOk(calls[k], buckets[k], windowSecs)
    }

    constructor (capacity: nat, windowSecs: nat)
      ensures Valid() && buckets == map[] && calls == map[]
      ensures this.capacity == AtLeastOne(capacity) && this.windowSecs == AtLeastOne(windowSecs)
    {
      this.capacity := AtLeastOne(capacity);
      this.windowSecs := AtLeastOne(windowSecs);
      buckets := map[];
      calls := map[];
    }

    /** The history that a call on this key extends; a new key takes the capacity of its first call. */
    ghost function HistoryOf(key: string, cap: nat): History
      requires Valid()
      reads this
    {
      if key in calls then calls[key] else NewHistory(cap, windowSecs)
    }

    method TryAcquire(key: string, now: real) returns (ok: bool)
      requires Valid()
      modifies this
      ensures Valid()
      ensures ok == NextAdmitted(old(HistoryOf(key, capacity)), now)
      ensures calls == old(calls)[key := Extend(old(HistoryOf(key, capacity)), now)]
      ensures forall k :: k in old(buckets) && k != key ==> k in buckets && buckets[k] == old(buckets)[k]
    {
      ok := TryAcquireWithCapacity(key, capacity, now);
    }

    /**
     Admits exactly when the key's history does, records the call, and touches no other key.
     The capacity argument matters only on the key's first call.
     */
    method TryAcquireWithCapacity(key: string, cap: nat, now: real) returns (ok: bool)
      requires Valid()
      modifies this
      ensures Valid()
      ensures ok == NextAdmitted(old(HistoryOf(key, cap)), now)
      ensures calls == old(calls)[key := Extend(old(HistoryOf(key, cap)), now)]
      ensures forall k :: k in old(buckets) && k != key ==> k in buckets && buckets[k] == old(buckets)[k]
    {
      ghost var h := HistoryOf(key, cap);
      var bucket;
      if key in buckets {
        bucket := buckets[key];
        KeyStaysOk(h, bucket, windowSecs, now);
      } else {
        bucket := FreshBucket(AtLeastOne(cap) as real, RefillRate(cap, windowSecs), now);
        KeyStartsOk(cap, windowSecs, now);
      }
      bucket, ok := Take(bucket, now);
      buckets := buckets[key := bucket];
      calls := calls[key := Extend(h, now)];
    }

    /** `None` for an unknown key; otherwise the bucket's own hint. Changes nothing. */
    method RetryAfterSecs(key: string, now: real) returns (r: Option<nat>)
      requires Valid()
      ensures key !in buckets ==> r == None
      ensures key in buckets ==> buckets[key].refillPerSec > 0.0 && r == RetryAfter(buckets[key], now)
    {
      if key !in buckets {
        return None;
      }
      assert KeyOk(calls[key], buckets[key], windowSecs);
      r := Hint(buckets[key], now);
    }
  }

  ghost predicate KeyOk(h: History, b: Bucket, windowSecs: nat) {
    Explains(h, b) && b.refillPerSec * windowSecs as real == b.capacity
  }

  lemma {:induction false} KeyStaysOk(h: History, b: Bucket, windowSecs: nat, now: real)
    requires KeyOk(h, b, windowSecs)
    ensures KeyOk(Extend(h, now), AfterCall(b, now), windowSecs) && (Admits(b, now) <==> NextAdmitted(h, now))
  {
    CallIsExplained(h, b, now);
  }

  lemma {:induction false} KeyStartsOk(cap: nat, windowSecs: nat, now: real)
    requires windowSecs >= 1
    ensures var h := NewHistory(cap, windowSecs);
      var b := FreshBucket(AtLeastOne(cap) as real, RefillRate(cap, windowSecs), now);
      KeyOk(Extend(h, now), AfterCall(b, now), windowSecs) && (Admits(b, now) <==> NextAdmitted(h, now))
  {
    RefillRateFillsWindow(cap, windowSecs);
    FirstCallIsExplained(NewHistory(cap, windowSecs), RefillRate(cap, windowSecs), now);
  }

  /** The in-place update of one bucket: refill, then take a token if there is one. */
  method Take(b: Bucket, now: real) returns (after: Bucket, ok: bool)
    ensures after == AfterCall(b, now) && (ok <==> Admits(b, now))
  {
    var elapsed := Advance(now, b.lastRefill);
    after := b.(tokens := RMin(b.tokens + elapsed * b.refillPerSec, b.capacity));
    after := after.(lastRefill := now);
    ok := after.tokens >= 1.0;
    if ok {
      after := after.(tokens := after.tokens - 1.0);
    }
  }

  /** The computation of the hint. */
  method Hint(b: Bucket, now: real) returns (r: Option<nat>)
    requires b.refillPerSec > 0.0
    ensures r == RetryAfter(b, now)
  {
    var elapsed := Advance(now, b.lastRefill);
    var tokens := RMin(b.tokens + elapsed * b.refillPerSec, b.capacity);
    assert tokens == Level(b, now);
    if tokens >= 1.0 {
      return None;
    }
    var deficit := 1.0 - tokens;
    var wait := Ceil(deficit / b.refillPerSec);
    r := Some(if wait < 1 then 1 else wait);
  }
}
