/** Why the poll loop ends: a valid file never gets stuck, and works only so many times. */
module RunProgress {
  import opened TaskGraph
  import opened TaskFiles
  import opened TaskRuns
  import opened RunInvariant

  // ---------------------------------------------------------------- the measure

  /** Twice the attempts left, one more while an attempt is running, nothing once terminal. */
  function Rank(t: TaskRun): nat {
    var left := if t.attemptsStarted <= Allowed(t.maxAttempts) then Allowed(t.maxAttempts) - t.attemptsStarted else 0;
    if Terminal(t.state) then 0 else if t.state.Running? then 2 * left + 1 else 2 * left
  }

  function Measure(ts: seq<TaskRun>): nat {
    if ts == [] then 0 else Measure(ts[..|ts| - 1]) + Rank(ts[|ts| - 1])
  }

  lemma {:induction false} MeasureCompares(ts: seq<TaskRun>, us: seq<TaskRun>)
    requires |us| == |ts| && forall i :: 0 <= i < |ts| ==> Rank(us[i]) <= Rank(ts[i])
    ensures Measure(us) <= Measure(ts)
    ensures (exists i :: 0 <= i < |ts| && Rank(us[i]) < Rank(ts[i])) ==> Measure(us) < Measure(ts)
    decreases |ts|
  {
    if ts != [] {
      var n := |ts| - 1;
      MeasureCompares(ts[..n], us[..n]);
      if i :| 0 <= i < |ts| && Rank(us[i]) < Rank(ts[i]) {
        if i < n {
          assert us[..n][i] == us[i] && ts[..n][i] == ts[i];
        }
      }
    }
  }

  lemma {:induction false} MarkRank(t: TaskRun, doomed: set<string>)
    requires Bookkeeping(t)
    ensures var u := MarkOne(t, doomed); u == t || Rank(u) < Rank(t)
  {}

  lemma {:induction false} AbortRank(t: TaskRun, now: nat)
    requires Bookkeeping(t)
    ensures Rank(AbortOne(t, now)) <= Rank(t)
  {}

  lemma {:induction false} StartRank(t: TaskRun, i: nat, answer: LaunchAnswer, now: nat)
    requires Bookkeeping(t) && Queued(t.state)
    ensures Rank(StartAttempt(t, i, answer, now)) < Rank(t)
  {}

  lemma {:induction false} LaunchRank(t: TaskRun, i: nat, snap: Snapshot, obs: Observation)
    requires Bookkeeping(t) && Ready(t, i, snap, obs)
    ensures Rank(LaunchOne(t, i, snap.outputs, obs)) < Rank(t)
  {
    if t.def.peer.None? && LaunchPrompt(t.def.prompt, snap.outputs, obs.read(i)).Ok? {
      var prompt := LaunchPrompt(t.def.prompt, snap.outputs, obs.read(i)).value;
      StartRank(t, i, obs.launch(i, prompt), obs.launchClock(i));
    }
  }

  lemma {:induction false} PollRank(t: TaskRun, i: nat, obs: Observation)
    requires Bookkeeping(t)
    ensures Rank(PollOne(t, i, obs)) <= Rank(t)
    ensures t.state.Running? && !obs.wait(i).StillRunning? ==> Rank(PollOne(t, i, obs)) < Rank(t)
  {}

  // ---------------------------------------------------------------- the passes

  lemma {:induction false} SweepShrinks(file: TaskFile, ts: seq<TaskRun>, obs: Observation)
    requires Inv(file, ts)
    ensures Measure(Swept(ts, obs)) <= Measure(ts)
    ensures !CancelAtTop(obs) && Swept(ts, obs) != ts ==> Measure(Swept(ts, obs)) < Measure(ts)
  {
    var first := if CancelAtTop(obs) then AbortedRuns(ts, obs.abortClock) else ts;
    forall i | 0 <= i < |ts| ensures Rank(first[i]) <= Rank(ts[i]) {
      assert RecordOk(file, ts, i);
      AbortRank(ts[i], obs.abortClock);
    }
    MeasureCompares(ts, first);
    if CancelAtTop(obs) {
      AbortPassKeeps(file, ts, obs.abortClock);
    }
    var us := Marked(first);
    forall i | 0 <= i < |first| ensures us[i] == first[i] || Rank(us[i]) < Rank(first[i]) {
      assert RecordOk(file, first, i);
      MarkRank(first[i], DoomedNames(first));
    }
    MeasureCompares(first, us);
    if us != first {
      var i :| 0 <= i < |first| && us[i] != first[i];
    }
  }

  lemma {:induction false} LaunchShrinks(file: TaskFile, ts: seq<TaskRun>, parallel: bool, obs: Observation)
    requires Inv(file, ts)
    ensures Measure(LaunchPass(ts, parallel, obs)) <= Measure(ts)
    ensures LaunchPass(ts, parallel, obs) != ts ==> Measure(LaunchPass(ts, parallel, obs)) < Measure(ts)
  {
    var us := LaunchPass(ts, parallel, obs);
    var snap := SnapshotOf(ts, parallel);
    forall i | 0 <= i < |ts| ensures us[i] == ts[i] || Rank(us[i]) < Rank(ts[i]) {
      assert RecordOk(file, ts, i);
      LaunchPointwise(ts, 0, CountRunning(ts), snap, obs, i);
      if us[i] != ts[i] {
        LaunchRank(ts[i], i, snap, obs);
      }
    }
    MeasureCompares(ts, us);
    if us != ts {
      var i :| 0 <= i < |ts| && us[i] != ts[i];
    }
  }

  lemma {:induction false} PollShrinks(file: TaskFile, ts: seq<TaskRun>, obs: Observation)
    requires Inv(file, ts)
    ensures Measure(PollPass(ts, obs)) <= Measure(ts) && Measure(Polled(ts, obs)) <= Measure(ts)
    ensures (exists i :: 0 <= i < |ts| && ts[i].state.Running? && !obs.wait(i).StillRunning?)
      ==> Measure(PollPass(ts, obs)) < Measure(ts)
  {
    var us := PollPass(ts, obs);
    forall i | 0 <= i < |ts|
      ensures Rank(us[i]) <= Rank(ts[i])
      ensures ts[i].state.Running? && !obs.wait(i).StillRunning? ==> Rank(us[i]) < Rank(ts[i])
    {
      assert RecordOk(file, ts, i);
      PollRank(ts[i], i, obs);
    }
    MeasureCompares(ts, us);
  }

  // ---------------------------------------------------------------- some task is ready

  function UnfinishedNames(ts: seq<TaskRun>): set<string> {
    set t | t in ts && !Terminal(t.state) :: t.def.name
  }

  /**
   Nothing runs, a marking pass changes nothing and no timer is pending: then the unfinished
   task that depends on no other unfinished one, which exists because the graph is acyclic, is ready.
   */
  lemma {:induction false} SomeTaskReady(file: TaskFile, ts: seq<TaskRun>, parallel: bool, obs: Observation) returns (j: nat)
    requires ValidFile(file) && Inv(file, ts) && Marked(ts) == ts
    requires forall i :: 0 <= i < |ts| ==> !ts[i].state.Running? && !Waits(ts, i, obs)
    requires !AllTerminal(ts)
    ensures j < |ts| && Ready(ts[j], j, SnapshotOf(ts, parallel), obs)
  {
    var g := GraphOf(file.tasks);
    var s := UnfinishedNames(ts);
    var i :| 0 <= i < |ts| && !Terminal(ts[i].state);
    assert ts[i] in ts && ts[i].def.name in s;
    var n := MinimalExists(g, s);
    var t :| t in ts && !Terminal(t.state) && t.def.name == n;
    j :| 0 <= j < |ts| && ts[j] == t;
    assert RecordOk(file, ts, j);
    GraphDeps(file.tasks, j);
    forall d | d in t.def.dependsOn ensures d in CompletedNames(ts) {
      DependencyFinished(file, ts, j, d);
    }
    assert !Waits(ts, j, obs);
  }

  lemma {:induction false} DependencyFinished(file: TaskFile, ts: seq<TaskRun>, j: nat, d: string)
    requires ValidFile(file) && Inv(file, ts) && Marked(ts) == ts
    requires j < |ts| && Queued(ts[j].state) && d in ts[j].def.dependsOn && d !in UnfinishedNames(ts)
    ensures d in CompletedNames(ts)
  {
    assert RecordOk(file, ts, j);
    var k := TaskNamed(file, ts, j, d);
    assert ts[k] in ts;
    assert Terminal(ts[k].state);
    var failed := FailedDeps(ts[j].def.dependsOn, DoomedNames(ts));
    assert Marked(ts)[j] == MarkOne(ts[j], DoomedNames(ts));
    assert failed == [] && d !in failed;
    assert ts[k].def.name !in DoomedNames(ts);
    CompletedIsNamed(ts, k);
  }

  /** Every dependency of a valid file's task is itself one of its tasks. */
  lemma {:induction false} TaskNamed(file: TaskFile, ts: seq<TaskRun>, j: nat, d: string) returns (k: nat)
    requires ValidFile(file) && Inv(file, ts) && j < |ts| && d in ts[j].def.dependsOn
    ensures k < |ts| && ts[k].def.name == d
  {
    assert RecordOk(file, ts, j);
    var l :| 0 <= l < |file.tasks[j].dependsOn| && file.tasks[j].dependsOn[l] == d;
    var t :| t in file.tasks && t.name == d;
    k :| 0 <= k < |file.tasks| && file.tasks[k] == t;
    assert RecordOk(file, ts, k);
  }

  /** If a task is ready and nothing runs, the launch loop acts on some task. */
  lemma {:induction false} LaunchActs(ts: seq<TaskRun>, i: nat, snap: Snapshot, obs: Observation, j: nat) returns (k: nat)
    requires i <= j < |ts| && Ready(ts[j], j, snap, obs) && Uncancelled(obs, |ts|)
    ensures k < |ts| && Ready(ts[k], k, snap, obs)
    ensures LaunchFrom(ts, i, 0, snap, obs)[k] == LaunchOne(ts[k], k, snap.outputs, obs)
    decreases |ts| - i
  {
    if Ready(ts[i], i, snap, obs) {
      k := i;
      var t := LaunchOne(ts[i], i, snap.outputs, obs);
      LaunchPointwise(ts[i := t], i + 1, if t.state.Running? then 1 else 0, snap, obs, i);
    } else {
      k := LaunchActs(ts, i + 1, snap, obs, j);
    }
  }

  lemma {:induction false} NothingRunning(ts: seq<TaskRun>)
    requires forall i :: 0 <= i < |ts| ==> !ts[i].state.Running?
    ensures CountRunning(ts) == 0
    decreases |ts|
  {
    if ts != [] {
      NothingRunning(ts[..|ts| - 1]);
    }
  }

  // ---------------------------------------------------------------- progress

  /** Task `i` gives the loop something to wait for: its process lives on, or its retry timer runs. */
  predicate Waits(ts: seq<TaskRun>, i: nat, obs: Observation)
    requires i < |ts|
  {
    || (ts[i].state.Running? && obs.wait(i).StillRunning?)
    || (ts[i].state.RetryQueued? && !Due(ts[i], obs.launchClock(i)))
  }

  predicate Waiting(ts: seq<TaskRun>, obs: Observation) {
    exists i :: 0 <= i < |ts| && Waits(ts, i, obs)
  }

  lemma {:induction false} IterationNeverGrows(file: TaskFile, ts: seq<TaskRun>, parallel: bool, obs: Observation)
    requires Inv(file, ts)
    ensures Measure(Iteration(ts, parallel, obs)) <= Measure(LaunchPass(Swept(ts, obs), parallel, obs))
    ensures Measure(LaunchPass(Swept(ts, obs), parallel, obs)) <= Measure(Swept(ts, obs)) <= Measure(ts)
  {
    var swept := Swept(ts, obs);
    SweepKeeps(file, ts, obs);
    SweepShrinks(file, ts, obs);
    LaunchPassKeeps(file, swept, parallel, obs);
    LaunchShrinks(file, swept, parallel, obs);
    PollShrinks(file, LaunchPass(swept, parallel, obs), obs);
  }

  /** An uncancelled iteration that does no work changes nothing, and all it polled is still running. */
  lemma {:induction false} StallChangesNothing(file: TaskFile, ts: seq<TaskRun>, parallel: bool, obs: Observation)
    requires Inv(file, ts) && Uncancelled(obs, |ts|) && !SomePanicked(ts)
    requires Measure(Iteration(ts, parallel, obs)) >= Measure(ts)
    ensures Marked(ts) == ts && LaunchPass(ts, parallel, obs) == ts && Iteration(ts, parallel, obs) == ts
    ensures forall i :: 0 <= i < |ts| && ts[i].state.Running? ==> obs.wait(i).StillRunning?
  {
    IterationNeverGrows(file, ts, parallel, obs);
    SweepShrinks(file, ts, obs);
    LaunchShrinks(file, ts, parallel, obs);
    PollShrinks(file, ts, obs);
    assert PollPass(ts, obs) == ts;
  }

  /**
   No reachable state is stuck: with unfinished tasks, no live process and no pending retry
   timer, one uncancelled iteration strictly decreases the measure, in either mode.
   */
  lemma {:induction false} NotStuck(file: TaskFile, ts: seq<TaskRun>, parallel: bool, obs: Observation)
    requires ValidFile(file) && Inv(file, ts) && Uncancelled(obs, |ts|) && !SomePanicked(ts)
    requires !AllTerminal(ts) && !Waiting(ts, obs)
    ensures Measure(Iteration(ts, parallel, obs)) < Measure(ts)
  {
    if Measure(Iteration(ts, parallel, obs)) >= Measure(ts) {
      StallChangesNothing(file, ts, parallel, obs);
      forall i | 0 <= i < |ts| ensures !ts[i].state.Running? {
        assert !Waits(ts, i, obs);
      }
      LaunchesSomething(file, ts, parallel, obs);
      assert false;
    }
  }

  lemma {:induction false} LaunchesSomething(file: TaskFile, ts: seq<TaskRun>, parallel: bool, obs: Observation)
    requires ValidFile(file) && Inv(file, ts) && Uncancelled(obs, |ts|) && Marked(ts) == ts
    requires forall i :: 0 <= i < |ts| ==> !ts[i].state.Running? && !Waits(ts, i, obs)
    requires !AllTerminal(ts)
    ensures LaunchPass(ts, parallel, obs) != ts
  {
    var snap := SnapshotOf(ts, parallel);
    var j := SomeTaskReady(file, ts, parallel, obs);
    NothingRunning(ts);
    var k := LaunchActs(ts, 0, snap, obs, j);
    assert RecordOk(file, ts, k);
    LaunchRank(ts[k], k, snap, obs);
  }

  // ---------------------------------------------------------------- whole runs

  /** How many of the iterations that a run executes start with something to wait for. */
  function IdleIterations(ts: seq<TaskRun>, parallel: bool, script: seq<Observation>): nat
    decreases |script|
  {
    if script == [] then 0
    else
      var next := Iteration(ts, parallel, script[0]);
      (if Waiting(ts, script[0]) then 1 else 0)
      + if GoesOn(next, script[0]) then IdleIterations(next, parallel, script[1..]) else 0
  }

  lemma {:induction false} WorkIsBounded(file: TaskFile, ts: seq<TaskRun>, parallel: bool, script: seq<Observation>)
    requires ValidFile(file) && Inv(file, ts) && NeverCancelled(script, |ts|) && !AllTerminal(ts) && !SomePanicked(ts)
    ensures Run(ts, parallel, script).Polling? ==>
      |script| + Measure(Run(ts, parallel, script).tasks) <= IdleIterations(ts, parallel, script) + Measure(ts)
    decreases |script|
  {
    if script != [] {
      var next := Iteration(ts, parallel, script[0]);
      WorkOrWait(file, ts, parallel, script[0]);
      if GoesOn(next, script[0]) {
        WorkIsBounded(file, next, parallel, script[1..]);
      }
    }
  }

  lemma {:induction false} WorkOrWait(file: TaskFile, ts: seq<TaskRun>, parallel: bool, obs: Observation)
    requires ValidFile(file) && Inv(file, ts) && Uncancelled(obs, |ts|) && !AllTerminal(ts) && !SomePanicked(ts)
    ensures Inv(file, Iteration(ts, parallel, obs))
    ensures 1 + Measure(Iteration(ts, parallel, obs)) <= Measure(ts) + if Waiting(ts, obs) then 1 else 0
  {
    IterationKeeps(file, ts, parallel, obs);
    IterationNeverGrows(file, ts, parallel, obs);
    if !Waiting(ts, obs) {
      NotStuck(file, ts, parallel, obs);
    }
  }

  function TotalAttempts(ts: seq<TaskRun>): nat {
    if ts == [] then 0 else TotalAttempts(ts[..|ts| - 1]) + Allowed(ts[|ts| - 1].maxAttempts)
  }

  lemma {:induction false} InitialMeasure(ts: seq<TaskRun>)
    requires forall i :: 0 <= i < |ts| ==> ts[i].state.Pending? && ts[i].attemptsStarted == 0
    ensures Measure(ts) == 2 * TotalAttempts(ts)
    decreases |ts|
  {
    if ts != [] {
      InitialMeasure(ts[..|ts| - 1]);
    }
  }

  lemma {:induction false} EmptyRunEnds(parallel: bool, script: seq<Observation>)
    requires script != []
    ensures !Run([], parallel, script).Polling?
  {
    assert |Iteration([], parallel, script[0])| == 0;
  }

  /**
   An uncancelled run of a valid file that is still polling has spent all but twice the permitted
   attempts' number of its iterations waiting for a live process or a retry timer.
   */
  lemma {:induction false} RunTerminates(file: TaskFile, parallel: bool, script: seq<Observation>)
    requires ValidFile(file) && NeverCancelled(script, |file.tasks|)
    requires script != [] && Run(InitialRuns(file), parallel, script).Polling?
    ensures |script| <= IdleIterations(InitialRuns(file), parallel, script) + 2 * TotalAttempts(InitialRuns(file))
  {
    var ts := InitialRuns(file);
    InitialInv(file);
    InitialMeasure(ts);
    if file.tasks == [] {
      EmptyRunEnds(parallel, script);
    } else {
      assert !Terminal(ts[0].state);
      WorkIsBounded(file, ts, parallel, script);
    }
  }
}
