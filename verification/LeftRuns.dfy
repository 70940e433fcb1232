/** Runs that are left early: aborted by a panic, or by a report that could not be written. */
module LeftRuns {
  import opened Text
  import opened Templates
  import opened TaskFiles
  import opened TaskRuns
  import opened RunInvariant
  import opened RunOutcome
  import opened SmoothRuns

  // ---------------------------------------------------------------- which files can crash a run

  /** The task is not delegated, its first placeholder has a dot, and all it transitively depends on is local. */
  ghost predicate CanCrash(file: TaskFile, i: nat)
    requires i < |file.tasks|
  {
    file.tasks[i].peer.None? && FirstDotted(file.tasks[i].prompt) && DependsOnLocal(file, i)
  }

  lemma {:induction false} PanickedCanCrash(file: TaskFile, ts: seq<TaskRun>, i: nat)
    requires ValidFile(file) && Inv(file, ts) && i < |ts| && Panicked(ts[i])
    ensures CanCrash(file, i)
  {
    assert RecordOk(file, ts, i);
    ReadyDependsOnLocal(file, ts, i);
  }

  /** No run with bad logs ends well if some task can crash it. */
  lemma {:induction false} CrashableNeverEndsWell(file: TaskFile, ts: seq<TaskRun>, i: nat, log: string)
    requires ValidFile(file) && SmoothEnd(file, ts, log) && Bad(log) && i < |ts|
    ensures !CanCrash(file, i)
  {
    if CanCrash(file, i) {
      LocalNotSkipped(file, ts, i, log);
      assert RecordOk(file, ts, i) && WentWell(ts[i], log) && !Panicked(ts[i]);
      StuckBeforeDot(ts[i], CompletedNames(ts), DoomedNames(ts), log);
    }
  }

  lemma {:induction false} StuckBeforeDot(t: TaskRun, done: set<string>, doomed: set<string>, log: string)
    requires Bookkeeping(t) && Placed(t, done, doomed) && WentWell(t, log) && Bad(log) && !Panicked(t)
    requires Terminal(t.state) && !t.state.Aborted? && !SkippedForDependency(t) && t.def.peer.None?
    ensures !FirstDotted(t.def.prompt)
  {}

  /** Some run of a valid file is aborted by a panic, in either mode, iff some task of the file can crash it. */
  lemma {:induction false} CrashesIff(file: TaskFile, parallel: bool)
    requires ValidFile(file)
    ensures (exists script :: Run(InitialRuns(file), parallel, script).Crashed?) <==>
      exists i :: 0 <= i < |file.tasks| && CanCrash(file, i)
  {
    forall script | Run(InitialRuns(file), parallel, script).Crashed?
      ensures exists i :: 0 <= i < |file.tasks| && CanCrash(file, i)
    {
      CrashNeedsTask(file, parallel, script);
    }
    if i :| 0 <= i < |file.tasks| && CanCrash(file, i) {
      var script := TaskCrashes(file, parallel, i);
      assert Run(InitialRuns(file), parallel, script).Crashed?;
    }
  }

  lemma {:induction false} CrashNeedsTask(file: TaskFile, parallel: bool, script: seq<Observation>)
    requires ValidFile(file) && Run(InitialRuns(file), parallel, script).Crashed?
    ensures exists i :: 0 <= i < |file.tasks| && CanCrash(file, i)
  {
    PanicsShow(InitialRuns(file), parallel, script);
    ReachableInv(file, parallel, script);
    var ts := Run(InitialRuns(file), parallel, script).tasks;
    var i :| 0 <= i < |ts| && Panicked(ts[i]);
    PanickedCanCrash(file, ts, i);
  }

  lemma {:induction false} TaskCrashes(file: TaskFile, parallel: bool, i: nat) returns (script: seq<Observation>)
    requires ValidFile(file) && i < |file.tasks| && CanCrash(file, i)
    ensures Run(InitialRuns(file), parallel, script).Crashed?
  {
    var log := WideCharacterCuts(MAX_CAPTURED_OUTPUT, "\n");
    script := SmoothRunExists(file, parallel, log);
    if !Run(InitialRuns(file), parallel, script).Crashed? {
      CrashableNeverEndsWell(file, Run(InitialRuns(file), parallel, script).tasks, i, log);
    }
  }

  // ---------------------------------------------------------------- what a left run leaves behind

  /** How many iterations a run executes. */
  function Executed(ts: seq<TaskRun>, parallel: bool, script: seq<Observation>): (n: nat)
    ensures n <= |script| && (script != [] ==> n > 0)
    decreases |script|
  {
    if script == [] then 0
    else
      var next := Iteration(ts, parallel, script[0]);
      1 + if GoesOn(next, script[0]) then Executed(next, parallel, script[1..]) else 0
  }

  /** Left by a panic or a failed report, in an iteration not cancelled at its top. */
  ghost predicate LeftEarly(ts: seq<TaskRun>, parallel: bool, script: seq<Observation>) {
    && (Run(ts, parallel, script).Crashed? || Run(ts, parallel, script).Unreported?)
    && script != [] && !CancelAtTop(script[Executed(ts, parallel, script) - 1])
  }

  lemma {:induction false} LeftEarlyLater(ts: seq<TaskRun>, parallel: bool, script: seq<Observation>)
    requires script != [] && GoesOn(Iteration(ts, parallel, script[0]), script[0])
    requires LeftEarly(Iteration(ts, parallel, script[0]), parallel, script[1..])
    ensures LeftEarly(ts, parallel, script)
  {
    GoesOnWith(ts, parallel, script);
    ExecutedStep(ts, parallel, script);
  }

  lemma {:induction false} LeftEarlyNow(ts: seq<TaskRun>, parallel: bool, script: seq<Observation>)
    requires script != [] && !GoesOn(Iteration(ts, parallel, script[0]), script[0])
    requires !AllTerminal(Run(ts, parallel, script).tasks)
    ensures LeftEarly(ts, parallel, script)
  {
    StopsWith(ts, parallel, script);
    UnfinishedNotCancelled(ts, parallel, script[0]);
  }

  /**
   A run that was left holds an unfinished record only if a panic or a failed report ended it,
   in an iteration that did not find the flag set at its top.
   */
  lemma {:induction false} LeftUnfinished(ts: seq<TaskRun>, parallel: bool, script: seq<Observation>)
    requires !Run(ts, parallel, script).Polling? && !AllTerminal(Run(ts, parallel, script).tasks)
    ensures LeftEarly(ts, parallel, script)
    decreases |script|
  {
    if GoesOn(Iteration(ts, parallel, script[0]), script[0]) {
      GoesOnWith(ts, parallel, script);
      LeftUnfinished(Iteration(ts, parallel, script[0]), parallel, script[1..]);
      LeftEarlyLater(ts, parallel, script);
    } else {
      LeftEarlyNow(ts, parallel, script);
    }
  }

  lemma {:induction false} GoesOnWith(ts: seq<TaskRun>, parallel: bool, script: seq<Observation>)
    requires script != [] && GoesOn(Iteration(ts, parallel, script[0]), script[0])
    ensures Run(ts, parallel, script) == Run(Iteration(ts, parallel, script[0]), parallel, script[1..])
    ensures script[1..] == [] ==> Run(ts, parallel, script).Polling?
  {}

  lemma {:induction false} StopsWith(ts: seq<TaskRun>, parallel: bool, script: seq<Observation>)
    requires script != [] && !GoesOn(Iteration(ts, parallel, script[0]), script[0])
    ensures Run(ts, parallel, script).tasks == Iteration(ts, parallel, script[0]) && Executed(ts, parallel, script) == 1
    ensures Run(ts, parallel, script).Ended? ==> AllTerminal(Run(ts, parallel, script).tasks)
    ensures !Run(ts, parallel, script).Polling?
  {}

  lemma {:induction false} UnfinishedNotCancelled(ts: seq<TaskRun>, parallel: bool, obs: Observation)
    requires !AllTerminal(Iteration(ts, parallel, obs))
    ensures !CancelAtTop(obs)
  {
    if CancelAtTop(obs) {
      CancelledIterationOnlyAborts(ts, parallel, obs);
    }
  }

  lemma {:induction false} ExecutedStep(ts: seq<TaskRun>, parallel: bool, script: seq<Observation>)
    requires script != [] && GoesOn(Iteration(ts, parallel, script[0]), script[0]) && |script| > 1
    ensures var rest := script[1..];
      var n := Executed(Iteration(ts, parallel, script[0]), parallel, rest);
      Executed(ts, parallel, script) == n + 1 && n > 0 && rest[n - 1] == script[n]
  {}

  /** The exit that the records after the last iteration, and its report, call for; the checks come in this order. */
  ghost predicate LeftAs(us: seq<TaskRun>, reportOk: bool, loop: Loop) {
    loop == if SomePanicked(us) then Crashed(us)
            else if !reportOk then Unreported(us)
            else if AllTerminal(us) then Ended(us)
            else Loop.Polling(us)
  }

  lemma {:induction false} LastIteration(ts: seq<TaskRun>, parallel: bool, script: seq<Observation>)
    requires script != [] && (GoesOn(Iteration(ts, parallel, script[0]), script[0]) ==> |script| == 1)
    ensures Executed(ts, parallel, script) == 1
    ensures LeftAs(Run(ts, parallel, script).tasks, script[0].reportOk, Run(ts, parallel, script))
  {}

  /**
   A run is aborted iff its last iteration panicked, is left unreported iff that iteration's report
   failed otherwise, and ends iff it then left every task terminal; all reports before were written.
   */
  lemma {:induction false} ExitIs(ts: seq<TaskRun>, parallel: bool, script: seq<Observation>)
    requires script != []
    ensures var loop, last := Run(ts, parallel, script), Executed(ts, parallel, script) - 1;
      LeftAs(loop.tasks, script[last].reportOk, loop) && forall k :: 0 <= k < last ==> script[k].reportOk
    decreases |script|
  {
    if GoesOn(Iteration(ts, parallel, script[0]), script[0]) && |script| > 1 {
      GoesOnWith(ts, parallel, script);
      ExitIs(Iteration(ts, parallel, script[0]), parallel, script[1..]);
      ExecutedStep(ts, parallel, script);
      forall k | 0 <= k < Executed(ts, parallel, script) - 1 ensures script[k].reportOk {
        assert k > 0 ==> script[1..][k - 1] == script[k];
      }
    } else {
      LastIteration(ts, parallel, script);
    }
  }

  /**
   Once a read in iteration `k` finds the flag set, the loop is left by the end of iteration
   `k + 1`; and every task is then terminal, unless a panic or a failed report ended it by the
   end of iteration `k`.
   */
  lemma {:induction false} CancelledRunLeaves(ts: seq<TaskRun>, parallel: bool, script: seq<Observation>, k: nat)
    requires CancelSticks(script, |ts|) && k + 1 < |script| && !Uncancelled(script[k], |ts|)
    ensures var loop, n := Run(ts, parallel, script), Executed(ts, parallel, script);
      && !loop.Polling? && n <= k + 2
      && (!AllTerminal(loop.tasks) ==> (loop.Crashed? || loop.Unreported?) && n <= k + 1)
  {
    CancelledRunEnds(ts, parallel, script, k);
    ExecutedAtMost(ts, parallel, script, k);
    if !AllTerminal(Run(ts, parallel, script).tasks) {
      LeftUnfinished(ts, parallel, script);
      assert CancelAtTop(script[k + 1]);
    }
  }

  lemma {:induction false} ExecutedAtMost(ts: seq<TaskRun>, parallel: bool, script: seq<Observation>, k: nat)
    requires k + 1 < |script| && CancelAtTop(script[k + 1])
    ensures Executed(ts, parallel, script) <= k + 2
    decreases |script|
  {
    var next, rest := Iteration(ts, parallel, script[0]), script[1..];
    if GoesOn(next, script[0]) {
      if k > 0 {
        assert rest[k] == script[k + 1];
        ExecutedAtMost(next, parallel, rest, k - 1);
      } else {
        CancelledIterationOnlyAborts(next, parallel, rest[0]);
      }
    }
  }

  /**
   Such a run exists: the flag is set while the first of two tasks is launched, the report of
   that iteration fails, and the task is left running.
   */
  lemma {:induction false} FailedReportLeavesRunning(file: TaskFile) returns (obs: Observation)
    requires AllPlain(file) && |file.tasks| == 2
    ensures !Uncancelled(obs, 2) && !CancelAtTop(obs)
    ensures var loop := Run(InitialRuns(file), true, [obs]);
      loop.Unreported? && |loop.tasks| == 2 && loop.tasks[0].state.Running?
  {
    var ts := InitialRuns(file);
    var later := Busy(2).(reportOk := false);
    obs := later.(cancelFrom := 2);
    NothingToSweep(file, later);
    PlainTasksRun(file, later, 0);
    OneReadApart(ts, 0, CountRunning(ts), SnapshotOf(ts, true), later, 2, 0);
    NoLaunchOnceSeen(ts, true, obs, 1);
    var launched := LaunchPass(ts, true, obs);
    assert Swept(ts, obs) == ts;
    assert launched[0].state.Running? && launched[1] == ts[1];
    NeitherPanicked(launched, obs);
  }

  lemma {:induction false} NeitherPanicked(ts: seq<TaskRun>, obs: Observation)
    requires |ts| == 2 && ts[0].state.Running? && ts[1].state.Pending? && obs.wait(0).StillRunning?
    ensures !SomePanicked(Polled(ts, obs)) && Polled(ts, obs)[0] == ts[0]
  {}
}
