/** How soon the poll loop ends when processes end and the clock moves on. */
module RunEnds {
  import opened TaskFiles
  import opened TaskRuns
  import opened RunInvariant
  import opened RunProgress

  // ---------------------------------------------------------------- the environment

  /** Of any `polls + 1` consecutive polls of a task's process, one finds that it has ended. */
  ghost predicate ProcessesEnd(script: seq<Observation>, n: nat, polls: nat) {
    forall i, k :: 0 <= i < n && 0 <= k && k + polls < |script| ==> EndsWithin(script, i, k, polls)
  }

  ghost predicate EndsWithin(script: seq<Observation>, i: nat, k: nat, polls: nat)
    requires k + polls < |script|
  {
    exists l :: k <= l <= k + polls && !script[l].wait(i).StillRunning?
  }

  /** The longest back-off. */
  const MAX_DELAY: nat := 3000

  /** In `turns` iterations the clock passes the longest back-off. */
  ghost predicate ClockAdvances(script: seq<Observation>, n: nat, turns: nat) {
    forall i, k, l :: 0 <= i < n && 0 <= k && k + turns <= l < |script| ==>
      MAX_DELAY + LatestClock(script[k], i) <= script[l].launchClock(i)
  }

  /** Never cancelled, processes end, and the clock moves on. */
  ghost predicate Fair(script: seq<Observation>, n: nat, polls: nat, turns: nat) {
    NeverCancelled(script, n) && ProcessesEnd(script, n, polls) && ClockAdvances(script, n, turns)
  }

  function LatestClock(obs: Observation, i: nat): nat {
    Max(obs.launchClock(i), obs.pollClock(i))
  }

  // ---------------------------------------------------------------- retry timers

  /** The retry timers set before iteration `k` have run out from `turns - 1` iterations later on. */
  ghost predicate TimersEnd(ts: seq<TaskRun>, script: seq<Observation>, k: nat, turns: nat) {
    forall i, l :: 0 <= i < |ts| && k <= l < |script| && k + turns <= l + 1 && ts[i].state.RetryQueued? ==>
      Due(ts[i], script[l].launchClock(i))
  }

  lemma {:induction false} RetryDelay(t: TaskRun, i: nat, obs: Observation, u: TaskRun)
    requires u == PollOne(t, i, obs) || exists answer :: u == StartAttempt(t, i, answer, obs.launchClock(i))
    requires u.state.RetryQueued?
    ensures u == t || (u.nextRetryAt.Some? && u.nextRetryAt.value <= MAX_DELAY + LatestClock(obs, i))
  {}

  lemma {:induction false} LaunchDelay(t: TaskRun, i: nat, outputs: map<string, string>, obs: Observation)
    ensures var u := LaunchOne(t, i, outputs, obs);
      u.state.RetryQueued? ==> u == t || (u.nextRetryAt.Some? && u.nextRetryAt.value <= MAX_DELAY + LatestClock(obs, i))
  {
    var u := LaunchOne(t, i, outputs, obs);
    if u.state.RetryQueued? {
      var prompt := LaunchPrompt(t.def.prompt, outputs, obs.read(i)).value;
      assert u == StartAttempt(t, i, obs.launch(i, prompt), obs.launchClock(i));
      RetryDelay(t, i, obs, u);
    }
  }

  /** A queued retry was queued before the iteration, or in it with a bounded delay. */
  lemma {:induction false} RetryQueuedWhen(ts: seq<TaskRun>, parallel: bool, obs: Observation, i: nat)
    requires i < |ts| && Uncancelled(obs, |ts|)
    ensures var u := Iteration(ts, parallel, obs)[i];
      u.state.RetryQueued? ==> u == ts[i] || (u.nextRetryAt.Some? && u.nextRetryAt.value <= MAX_DELAY + LatestClock(obs, i))
  {
    var swept := Swept(ts, obs);
    var launched := LaunchPass(swept, parallel, obs);
    LaunchPointwise(swept, 0, CountRunning(swept), SnapshotOf(swept, parallel), obs, i);
    LaunchDelay(swept[i], i, SnapshotOf(swept, parallel).outputs, obs);
    var u := PollOne(launched[i], i, obs);
    if u.state.RetryQueued? {
      RetryDelay(launched[i], i, obs, u);
    }
  }

  lemma {:induction false} TimersStep(
    ts: seq<TaskRun>, parallel: bool, script: seq<Observation>, start: nat, k: nat, turns: nat)
    requires start <= k < |script| && TimersEnd(ts, script, start, turns)
    requires Uncancelled(script[k], |ts|) && ClockAdvances(script, |ts|, turns)
    ensures TimersEnd(Iteration(ts, parallel, script[k]), script, k + 1, turns)
  {
    var us := Iteration(ts, parallel, script[k]);
    forall i, l | 0 <= i < |us| && k + 1 <= l < |script| && k + 1 + turns <= l + 1 && us[i].state.RetryQueued?
      ensures Due(us[i], script[l].launchClock(i))
    {
      RetryQueuedWhen(ts, parallel, script[k], i);
      if us[i] != ts[i] {
        assert MAX_DELAY + LatestClock(script[k], i) <= script[l].launchClock(i);
      }
    }
  }

  // ---------------------------------------------------------------- stalls are short

  predicate Stalls(ts: seq<TaskRun>, parallel: bool, obs: Observation) {
    Measure(Iteration(ts, parallel, obs)) >= Measure(ts)
  }

  /** The longest possible stall, plus one. */
  function Patience(polls: nat, turns: nat): (d: nat)
    ensures d > 0
  {
    Max(polls + 1, turns)
  }

  /** As processes end and timers run out, no state with unfinished tasks stalls for long. */
  lemma {:induction false} NoLongStall(
    file: TaskFile, ts: seq<TaskRun>, parallel: bool, script: seq<Observation>, start: nat, polls: nat, turns: nat)
    returns (l: nat)
    requires ValidFile(file) && Inv(file, ts) && !SomePanicked(ts) && !AllTerminal(ts)
    requires Fair(script, |ts|, polls, turns)
    requires start + Patience(polls, turns) <= |script| && TimersEnd(ts, script, start, turns)
    ensures start <= l < start + Patience(polls, turns) && !Stalls(ts, parallel, script[l])
  {
    if i :| 0 <= i < |ts| && ts[i].state.Running? {
      assert EndsWithin(script, i, start, polls);
      l :| start <= l <= start + polls && !script[l].wait(i).StillRunning?;
      if Stalls(ts, parallel, script[l]) {
        StallChangesNothing(file, ts, parallel, script[l]);
        assert false;
      }
    } else {
      l := start + Patience(polls, turns) - 1;
      assert !Waiting(ts, script[l]);
      NotStuck(file, ts, parallel, script[l]);
    }
  }

  lemma {:induction false} UnfinishedHasRank(file: TaskFile, ts: seq<TaskRun>)
    requires Inv(file, ts) && !AllTerminal(ts)
    ensures Measure(ts) > 0
  {
    var i :| 0 <= i < |ts| && !Terminal(ts[i].state);
    assert RecordOk(file, ts, i);
    RankBelowMeasure(ts, i);
  }

  lemma {:induction false} RankBelowMeasure(ts: seq<TaskRun>, i: nat)
    requires i < |ts|
    ensures Rank(ts[i]) <= Measure(ts)
    decreases |ts|
  {
    if i < |ts| - 1 {
      RankBelowMeasure(ts[..|ts| - 1], i);
    }
  }

  /** The iterations left suffice if every unit of the measure lasts for a longest stall. */
  ghost predicate Enough(left: int, patience: nat, measure: nat) {
    left >= patience * measure
  }

  lemma EnoughForOne(left: int, patience: nat, measure: nat)
    requires Enough(left, patience, measure) && measure > 0
    ensures left >= patience
  {
    assert patience * measure >= patience;
  }

  lemma EnoughAfterWork(left: int, left': int, patience: nat, measure: nat, measure': nat)
    requires Enough(left, patience, measure) && left' >= left - patience && measure' < measure
    ensures Enough(left', patience, measure')
  {
    assert patience * measure >= patience * (measure' + 1) == patience * measure' + patience;
  }

  lemma {:induction false} RunStep(ts: seq<TaskRun>, parallel: bool, script: seq<Observation>, k: nat)
    requires k < |script|
    ensures var next := Iteration(ts, parallel, script[k]);
      if GoesOn(next, script[k]) then Run(ts, parallel, script[k..]) == Run(next, parallel, script[k + 1..])
      else !Run(ts, parallel, script[k..]).Polling?
  {
    assert script[k..][0] == script[k] && script[k..][1..] == script[k + 1..];
  }

  lemma {:induction false} StallPasses(file: TaskFile, ts: seq<TaskRun>, parallel: bool, script: seq<Observation>, k: nat)
    requires k < |script| && Inv(file, ts) && !SomePanicked(ts) && Uncancelled(script[k], |ts|)
    requires Stalls(ts, parallel, script[k])
    ensures PassesOver(ts, parallel, script, k, k + 1)
  {
    StallChangesNothing(file, ts, parallel, script[k]);
    RunStep(ts, parallel, script, k);
  }

  /** A run passes over the iterations that stall. */
  lemma {:induction false} StallsPass(
    file: TaskFile, ts: seq<TaskRun>, parallel: bool, script: seq<Observation>, k: nat, m: nat)
    requires Inv(file, ts) && !SomePanicked(ts) && NeverCancelled(script, |ts|)
    requires k <= m <= |script| && forall l :: k <= l < m ==> Stalls(ts, parallel, script[l])
    ensures PassesOver(ts, parallel, script, k, m)
    decreases m - k
  {
    if k < m {
      StallPasses(file, ts, parallel, script, k);
      StallsPass(file, ts, parallel, script, k + 1, m);
    }
  }

  ghost predicate PassesOver(ts: seq<TaskRun>, parallel: bool, script: seq<Observation>, k: nat, m: nat)
    requires k <= |script| && m <= |script|
  {
    Run(ts, parallel, script[k..]).Polling? ==> Run(ts, parallel, script[k..]) == Run(ts, parallel, script[m..])
  }

  lemma FirstBelow(measures: seq<nat>, bound: nat, k: nat, l: nat) returns (m: nat)
    requires k <= l < |measures| && measures[l] < bound
    ensures k <= m <= l && measures[m] < bound && forall x :: k <= x < m ==> measures[x] >= bound
  {
    m := k;
    while measures[m] >= bound
      invariant k <= m <= l && forall x :: k <= x < m ==> measures[x] >= bound
      decreases l - m
    {
      m := m + 1;
    }
  }

  /** The first iteration from `k` on that does not stall. */
  lemma {:induction false} FirstWork(ts: seq<TaskRun>, parallel: bool, script: seq<Observation>, k: nat, l: nat) returns (m: nat)
    requires k <= l < |script| && !Stalls(ts, parallel, script[l])
    ensures k <= m <= l && !Stalls(ts, parallel, script[m])
    ensures forall x :: k <= x < m ==> Stalls(ts, parallel, script[x])
  {
    var measures := seq(|script|, x requires 0 <= x < |script| => Measure(Iteration(ts, parallel, script[x])));
    m := FirstBelow(measures, Measure(ts), k, l);
    forall x | k <= x < m ensures Stalls(ts, parallel, script[x]) {
      assert measures[x] >= Measure(ts);
    }
  }

  /** The loop goes on at iteration `k`, with iterations left for all the work left. */
  ghost predicate LoopAt(file: TaskFile, ts: seq<TaskRun>, script: seq<Observation>, k: nat, polls: nat, turns: nat) {
    && Inv(file, ts) && !SomePanicked(ts) && !AllTerminal(ts)
    && k <= |script| && TimersEnd(ts, script, k, turns)
    && Enough(|script| - k, Patience(polls, turns), Measure(ts))
  }

  lemma {:induction false} WorkStep(
    file: TaskFile, ts: seq<TaskRun>, parallel: bool, script: seq<Observation>, k: nat, m: nat, polls: nat, turns: nat)
    requires Fair(script, |ts|, polls, turns) && LoopAt(file, ts, script, k, polls, turns)
    requires k <= m < |script| && m < k + Patience(polls, turns)
    requires !Stalls(ts, parallel, script[m]) && GoesOn(Iteration(ts, parallel, script[m]), script[m])
    ensures LoopAt(file, Iteration(ts, parallel, script[m]), script, m + 1, polls, turns)
  {
    var next := Iteration(ts, parallel, script[m]);
    IterationKeeps(file, ts, parallel, script[m]);
    TimersStep(ts, parallel, script, k, m, turns);
    EnoughAfterWork(|script| - k, |script| - m - 1, Patience(polls, turns), Measure(ts), Measure(next));
  }

  /** Within a longest stall comes an iteration that does work. */
  lemma {:induction false} WorkWithin(
    file: TaskFile, ts: seq<TaskRun>, parallel: bool, script: seq<Observation>, k: nat, polls: nat, turns: nat)
    returns (m: nat)
    requires ValidFile(file) && Fair(script, |ts|, polls, turns) && LoopAt(file, ts, script, k, polls, turns)
    ensures k <= m < |script| && m < k + Patience(polls, turns) && !Stalls(ts, parallel, script[m])
    ensures PassesOver(ts, parallel, script, k, m)
  {
    UnfinishedHasRank(file, ts);
    EnoughForOne(|script| - k, Patience(polls, turns), Measure(ts));
    var l := NoLongStall(file, ts, parallel, script, k, polls, turns);
    m := FirstWork(ts, parallel, script, k, l);
    StallsPass(file, ts, parallel, script, k, m);
  }

  lemma {:induction false} EndsFrom(
    file: TaskFile, ts: seq<TaskRun>, parallel: bool, script: seq<Observation>, k: nat, polls: nat, turns: nat)
    requires ValidFile(file) && Fair(script, |ts|, polls, turns) && LoopAt(file, ts, script, k, polls, turns)
    ensures !Run(ts, parallel, script[k..]).Polling?
    decreases |script| - k
  {
    var m := WorkWithin(file, ts, parallel, script, k, polls, turns);
    var next := Iteration(ts, parallel, script[m]);
    RunStep(ts, parallel, script, m);
    if GoesOn(next, script[m]) {
      WorkStep(file, ts, parallel, script, k, m, polls, turns);
      EndsFrom(file, next, parallel, script, m + 1, polls, turns);
    }
  }

  /**
   An uncancelled run of a valid file ends, if every process ends within `polls` polls and the
   clock passes the longest back-off in `turns` iterations. It takes at most that many
   iterations, whichever is more, for each launch and each end of each permitted attempt.
   */
  lemma {:induction false} FairRunEnds(file: TaskFile, parallel: bool, script: seq<Observation>, polls: nat, turns: nat)
    requires ValidFile(file) && Fair(script, |file.tasks|, polls, turns)
    requires script != [] && |script| >= Patience(polls, turns) * (2 * TotalAttempts(InitialRuns(file)))
    ensures !Run(InitialRuns(file), parallel, script).Polling?
  {
    var ts := InitialRuns(file);
    InitialInv(file);
    InitialMeasure(ts);
    if file.tasks == [] {
      EmptyRunEnds(parallel, script);
    } else {
      assert !Terminal(ts[0].state);
      assert script[0..] == script;
      EndsFrom(file, ts, parallel, script, 0, polls, turns);
    }
  }
}
