/**
 The arithmetic of a token bucket on a refill clock: time is measured by the tokens it
 refills, so the bucket gains exactly what the clock advances and everything is linear.
 */
module TokenBucket {

  function RMin(a: real, b: real): real { if a < b then a else b }

  /** How far the clock advanced; nothing if it stepped back. */
  function Advance(now: real, since: real): real {
    if now > since then now - since else 0.0
  }

  /** The level that a call at `now` finds, after calls at the given ticks on a bucket created full. */
  function LevelAt(cap: real, ticks: seq<real>, now: real): real
    decreases |ticks|, 1
  {
    if ticks == [] then cap
    else RMin(TokensAfter(cap, ticks) + Advance(now, ticks[|ticks| - 1]), cap)
  }

  /** The tokens that the calls leave. */
  function TokensAfter(cap: real, ticks: seq<real>): real
    requires ticks != []
    decreases |ticks|, 0
  {
    var n := |ticks| - 1;
    var level := LevelAt(cap, ticks[..n], ticks[n]);
    if level >= 1.0 then level - 1.0 else level
  }

  /** Whether the `k`-th call was admitted. */
  predicate Admitted(cap: real, ticks: seq<real>, k: nat)
    requires k < |ticks|
  {
    LevelAt(cap, ticks[..k], ticks[k]) >= 1.0
  }

  /** How many of the calls `i`, ..., `j - 1` were admitted. */
  function Admissions(cap: real, ticks: seq<real>, i: nat, j: nat): nat
    requires i <= j <= |ticks|
    decreases j
  {
    if i == j then 0 else Admissions(cap, ticks, i, j - 1) + if Admitted(cap, ticks, j - 1) then 1 else 0
  }

  /** How far the clock moved forward from call `i` until `now`; steps back count for nothing. */
  function Elapsed(ticks: seq<real>, i: nat, now: real): real
    requires i < |ticks|
    decreases |ticks|
  {
    var n := |ticks| - 1;
    Advance(now, ticks[n]) + if i == n then 0.0 else Elapsed(ticks[..n], i, ticks[n])
  }

  /** On a clock that does not step back that is the time that passed. */
  ghost predicate Monotone(ticks: seq<real>, now: real) {
    && (forall i, j :: 0 <= i <= j < |ticks| ==> ticks[i] <= ticks[j])
    && (forall i :: 0 <= i < |ticks| ==> ticks[i] <= now)
  }

  lemma {:induction false} MonotoneElapsed(ticks: seq<real>, i: nat, now: real)
    requires i < |ticks| && Monotone(ticks, now)
    ensures Elapsed(ticks, i, now) == now - ticks[i]
    decreases |ticks|
  {
    var n := |ticks| - 1;
    if i < n {
      MonotoneElapsed(ticks[..n], i, ticks[n]);
    }
  }

  /** What the window that starts at call `i` leaves at `now`; the last window is empty. */
  function Headroom(cap: real, ticks: seq<real>, i: nat, now: real): real
    requires i <= |ticks|
  {
    if i == |ticks| then cap
    else cap + Elapsed(ticks, i, now) - Admissions(cap, ticks, i, |ticks|) as real
  }

  lemma {:induction false} AdmissionsPrefix(cap: real, ticks: seq<real>, n: nat, i: nat, j: nat)
    requires i <= j <= n <= |ticks|
    ensures Admissions(cap, ticks[..n], i, j) == Admissions(cap, ticks, i, j)
    decreases j
  {
    if i < j {
      AdmissionsPrefix(cap, ticks, n, i, j - 1);
      assert ticks[..n][..j - 1] == ticks[..j - 1];
    }
  }

  /** One more call moves the headroom of every earlier window by the same amount. */
  lemma {:induction false} HeadroomStep(cap: real, ticks: seq<real>, i: nat, now: real)
    requires i < |ticks|
    ensures var n := |ticks| - 1;
      Headroom(cap, ticks, i, now)
        == Headroom(cap, ticks[..n], i, ticks[n]) + Advance(now, ticks[n]) - (if Admitted(cap, ticks, n) then 1.0 else 0.0)
  {
    var n := |ticks| - 1;
    AdmissionsPrefix(cap, ticks, n, i, n);
  }

  /**
   On any clock, the incrementally kept level is the least headroom over all windows that end
   now: at most each of them, and equal to one.
   */
  lemma {:induction false} LevelIsLeastHeadroom(cap: real, ticks: seq<real>, now: real) returns (w: nat)
    ensures w <= |ticks| && LevelAt(cap, ticks, now) == Headroom(cap, ticks, w, now)
    ensures forall i :: 0 <= i <= |ticks| ==> LevelAt(cap, ticks, now) <= Headroom(cap, ticks, i, now)
    decreases |ticks|
  {
    if ticks == [] {
      return 0;
    }
    var n := |ticks| - 1;
    var init, last := ticks[..n], ticks[n];
    var v := LevelIsLeastHeadroom(cap, init, last);
    forall i | 0 <= i <= |ticks| ensures LevelAt(cap, ticks, now) <= Headroom(cap, ticks, i, now) {
      if i < |ticks| {
        HeadroomStep(cap, ticks, i, now);
      }
    }
    HeadroomStep(cap, ticks, v, now);
    w := if LevelAt(cap, ticks, now) == cap then |ticks| else v;
  }

  /** Admitting a call at `now` keeps the window from call `i` within capacity plus refill. */
  predicate WindowAllows(cap: real, ticks: seq<real>, i: nat, now: real)
    requires i < |ticks|
  {
    (Admissions(cap, ticks, i, |ticks|) + 1) as real <= cap + Elapsed(ticks, i, now)
  }

  /** On any clock, a call is admitted exactly when every window allows it. */
  lemma {:induction false} AdmittedIffEveryWindowAllows(cap: real, ticks: seq<real>, now: real)
    requires cap >= 1.0
    ensures LevelAt(cap, ticks, now) >= 1.0 <==> forall i :: 0 <= i < |ticks| ==> WindowAllows(cap, ticks, i, now)
  {
    var w := LevelIsLeastHeadroom(cap, ticks, now);
    forall i | 0 <= i < |ticks| ensures Headroom(cap, ticks, i, now) >= 1.0 <==> WindowAllows(cap, ticks, i, now) {}
  }

  /** How far the clock moved forward from call `i` to call `j`. */
  function Between(ticks: seq<real>, i: nat, j: nat): real
    requires i <= j < |ticks|
  {
    if i == j then 0.0 else Elapsed(ticks[..j], i, ticks[j])
  }

  lemma {:induction false} BetweenStep(ticks: seq<real>, i: nat, j: nat)
    requires i < j < |ticks|
    ensures Between(ticks, i, j) == Between(ticks, i, j - 1) + Advance(ticks[j], ticks[j - 1])
  {
    assert ticks[..j][..j - 1] == ticks[..j - 1];
  }

  /** On any clock, no window of calls admits more than the capacity plus what the clock moved forward over it. */
  lemma {:induction false} WindowBound(cap: real, ticks: seq<real>, i: nat, j: nat)
    requires cap >= 1.0 && i <= j < |ticks|
    ensures Admissions(cap, ticks, i, j + 1) as real <= cap + Between(ticks, i, j)
    decreases j
  {
    if Admitted(cap, ticks, j) {
      AdmissionsPrefix(cap, ticks, j, i, j);
      if i < j {
        AdmittedIffEveryWindowAllows(cap, ticks[..j], ticks[j]);
        assert WindowAllows(cap, ticks[..j], i, ticks[j]);
      }
    } else if i < j {
      WindowBound(cap, ticks, i, j - 1);
      BetweenStep(ticks, i, j);
    }
  }

  lemma {:induction false} TokensInRange(cap: real, ticks: seq<real>)
    requires cap >= 1.0 && ticks != []
    ensures 0.0 <= TokensAfter(cap, ticks) <= cap
    decreases |ticks|
  {
    var n := |ticks| - 1;
    if n > 0 {
      TokensInRange(cap, ticks[..n]);
    }
  }

  /** Calls at one instant on a full bucket are admitted until it is empty. */
  lemma {:induction false} BurstAdmitted(cap: nat, ticks: seq<real>, n: nat, tick: real)
    requires n <= cap && n <= |ticks| && forall k :: 0 <= k < n ==> ticks[k] == tick
    ensures Admissions(cap as real, ticks, 0, n) == n
    ensures n > 0 ==> TokensAfter(cap as real, ticks[..n]) == (cap - n) as real
    decreases n
  {
    if n > 0 {
      BurstAdmitted(cap, ticks, n - 1, tick);
      assert ticks[..n][..n - 1] == ticks[..n - 1];
    }
  }
}
