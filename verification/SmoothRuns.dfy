/** Which tasks can start at all, and the run in which everything goes well. */
module SmoothRuns {
  import opened Options
  import opened Text
  import opened TaskGraph
  import opened Templates
  import opened TaskFiles
  import opened TaskRuns
  import opened RunInvariant
  import opened RunProgress
  import opened RunEnds
  import opened RunOutcome

  // ---------------------------------------------------------------- which tasks can start

  /** Nothing the task transitively depends on is delegated or has an undotted placeholder. */
  ghost predicate DependsOnLocal(file: TaskFile, i: nat)
    requires i < |file.tasks|
  {
    forall j :: 0 <= j < |file.tasks| && DependsTransitively(GraphOf(file.tasks), file.tasks[i].name, file.tasks[j].name) ==>
      Local(file.tasks[j])
  }

  /** Neither is, or has, the task itself. */
  ghost predicate Launchable(file: TaskFile, i: nat)
    requires i < |file.tasks|
  {
    Local(file.tasks[i]) && DependsOnLocal(file, i)
  }

  /** Whatever lies on a dependency path from a task whose dependencies completed has started. */
  lemma {:induction false} PathStarted(file: TaskFile, ts: seq<TaskRun>, i: nat, j: nat, p: seq<string>)
    requires ValidFile(file) && Inv(file, ts) && i < |ts| && j < |ts| && DepsIn(ts[i], CompletedNames(ts))
    requires IsPath(GraphOf(file.tasks), p) && |p| > 1 && p[0] == ts[i].def.name && p[|p| - 1] == ts[j].def.name
    ensures ts[j].attemptsStarted > 0
    decreases |p|
  {
    assert RecordOk(file, ts, i);
    GraphDeps(file.tasks, i);
    PathTail(GraphOf(file.tasks), p);
    var k := WhoCompleted(ts, p[1]);
    assert RecordOk(file, ts, k);
    if |p| == 2 {
      SameRecord(file, ts, k, j);
    } else {
      PathStarted(file, ts, k, j, p[1..]);
    }
  }

  lemma {:induction false} DependenciesAreLocal(file: TaskFile, ts: seq<TaskRun>, i: nat, j: nat)
    requires ValidFile(file) && Inv(file, ts) && i < |ts| && j < |ts| && DepsIn(ts[i], CompletedNames(ts))
    requires DependsTransitively(GraphOf(file.tasks), ts[i].def.name, ts[j].def.name)
    ensures Local(file.tasks[j])
  {
    var g := GraphOf(file.tasks);
    var p :| IsPath(g, p) && |p| > 1 && p[0] == ts[i].def.name && p[|p| - 1] == ts[j].def.name;
    PathStarted(file, ts, i, j, p);
    assert RecordOk(file, ts, j);
  }

  lemma {:induction false} ReadyDependsOnLocal(file: TaskFile, ts: seq<TaskRun>, i: nat)
    requires ValidFile(file) && Inv(file, ts) && i < |ts| && DepsIn(ts[i], CompletedNames(ts))
    ensures DependsOnLocal(file, i)
  {
    assert RecordOk(file, ts, i);
    forall j | 0 <= j < |file.tasks| && DependsTransitively(GraphOf(file.tasks), file.tasks[i].name, file.tasks[j].name)
      ensures Local(file.tasks[j])
    {
      assert RecordOk(file, ts, j);
      DependenciesAreLocal(file, ts, i, j);
    }
  }

  /** A task that started an attempt is launchable. */
  lemma {:induction false} StartedIsLaunchable(file: TaskFile, ts: seq<TaskRun>, i: nat)
    requires ValidFile(file) && Inv(file, ts) && i < |ts| && ts[i].attemptsStarted > 0
    ensures Launchable(file, i)
  {
    assert RecordOk(file, ts, i);
    ReadyDependsOnLocal(file, ts, i);
  }

  // ---------------------------------------------------------------- a run in which all goes well

  /** Every launch succeeds, every process ends well at once, and every log holds the given text. */
  function Smooth(n: nat, k: nat, log: string): Observation {
    Observation(n + 1, 0, _ => MAX_DELAY * k, _ => MAX_DELAY * k, (_, _) => Launched(0), _ => Exited(Some(0)),
                _ => _ => Some(log), true)
  }

  function SmoothScript(n: nat, len: nat, log: string): seq<Observation> {
    seq(len, k requires 0 <= k < len => Smooth(n, k, log))
  }

  ghost predicate IsSmooth(obs: Observation, n: nat, log: string) {
    exists k :: obs == Smooth(n, k, log)
  }

  ghost predicate AllSmooth(script: seq<Observation>, n: nat, log: string) {
    forall k :: 0 <= k < |script| ==> IsSmooth(script[k], n, log)
  }

  lemma {:induction false} SmoothIsFair(n: nat, len: nat, log: string)
    ensures Fair(SmoothScript(n, len, log), n, 0, 1) && AllSmooth(SmoothScript(n, len, log), n, log)
  {
    var script := SmoothScript(n, len, log);
    forall i, k | 0 <= i < n && 0 <= k && k + 0 < |script| ensures EndsWithin(script, i, k, 0) {
      assert !script[k].wait(i).StillRunning?;
    }
    forall k | 0 <= k < |script| ensures IsSmooth(script[k], n, log) {
      assert script[k] == Smooth(n, k, log);
    }
  }

  /** The log cannot be captured: expanding any placeholder with it panics. */
  ghost predicate Bad(log: string) {
    CutsCharacter(log, MAX_CAPTURED_OUTPUT)
  }

  /**
   No retry and at most one attempt; only undotted placeholders fail, and only a bad log panics.
   With a bad log nothing whose first placeholder has a dot gets past its launch.
   */
  ghost predicate WentWell(t: TaskRun, log: string) {
    && !t.state.RetryQueued? && t.attemptsStarted <= 1
    && (Panicked(t) ==> Bad(log))
    && (t.state.Failed? && !Panicked(t) ==> !AllDotted(t.def.prompt))
    && (t.state.Running? || t.state.Completed? ==> t.stdoutLog == Some(LogName(Slug(t.def.name), 1)))
    && (Bad(log) && (t.attemptsStarted > 0 || (t.state.Failed? && !Panicked(t))) ==> !FirstDotted(t.def.prompt))
  }

  ghost predicate AllWentWell(ts: seq<TaskRun>, log: string) {
    forall i :: 0 <= i < |ts| ==> WentWell(ts[i], log)
  }

  lemma {:induction false} CleanReadsNeverPanic(prompt: string, outputs: map<string, LogPath>, read: LogPath -> Option<string>)
    requires ReadsClean(read)
    ensures var r := LaunchPrompt(prompt, outputs, read); r.Err? ==> !r.error.CapturePanicked?
  {
    LaunchPromptIsExpansion(prompt, outputs, read);
    var t := Parse(prompt);
    if Expand(t, outputs, read).Err? {
      var k := ExpandErrIsFirst(t, outputs, read);
      HolePanicsIff(Holes(t)[k], outputs, read);
    }
  }

  /** With a bad log, launching a ready task panics iff its first placeholder has a dot. */
  lemma {:induction false} BadLaunch(file: TaskFile, ts: seq<TaskRun>, parallel: bool, obs: Observation, log: string, i: nat)
    requires ValidFile(file) && Inv(file, ts) && i < |ts| && Ready(ts[i], i, SnapshotOf(ts, parallel), obs)
    requires Bad(log) && forall p :: obs.read(i)(p) == Some(log)
    ensures var r := LaunchPrompt(ts[i].def.prompt, CompletedOutputs(ts), obs.read(i));
      && (r.Err? && r.error.CapturePanicked? <==> FirstDotted(ts[i].def.prompt))
      && (r.Ok? ==> !FirstDotted(ts[i].def.prompt))
  {
    var prompt, outputs := ts[i].def.prompt, CompletedOutputs(ts);
    LaunchPanicNeedsDot(prompt, outputs, obs.read(i));
    LaunchPromptIsExpansion(prompt, outputs, obs.read(i));
    if FirstDotted(prompt) {
      var t := Parse(prompt);
      assert Holes(t)[0] in Holes(t);
      HoleNamesDependency(file, ts, i, Holes(t)[0]);
      var c := CompletedHasOutput(file, ts, Reference(Holes(t)[0]).value.0);
      HolePanicsIff(Holes(t)[0], outputs, obs.read(i));
      ExpandPanicsIff(t, outputs, obs.read(i));
    }
  }

  lemma {:induction false} FailsWithoutDot(prompt: string, outputs: map<string, LogPath>, read: LogPath -> Option<string>)
    ensures LaunchPrompt(prompt, outputs, read).Err? && !FirstDotted(prompt) ==> !AllDotted(prompt)
  {
    LaunchPromptIsExpansion(prompt, outputs, read);
    var t := Parse(prompt);
    if Expand(t, outputs, read).Err? {
      var k := ExpandErrIsFirst(t, outputs, read);
      assert Holes(t)[0] in Holes(t);
    }
  }

  lemma {:induction false} SmoothLaunch(
    file: TaskFile, ts: seq<TaskRun>, parallel: bool, n: nat, k: nat, log: string, i: nat)
    requires ValidFile(file) && Inv(file, ts) && i < |ts| && WentWell(ts[i], log)
    requires Ready(ts[i], i, SnapshotOf(ts, parallel), Smooth(n, k, log))
    ensures WentWell(LaunchOne(ts[i], i, CompletedOutputs(ts), Smooth(n, k, log)), log)
  {
    assert RecordOk(file, ts, i);
    var obs := Smooth(n, k, log);
    LaunchedIsLocal(ts[i].def.prompt, CompletedOutputs(ts), obs.read(i));
    if Bad(log) {
      BadLaunch(file, ts, parallel, obs, log, i);
      FailsWithoutDot(ts[i].def.prompt, CompletedOutputs(ts), obs.read(i));
    } else {
      CleanReadsNeverPanic(ts[i].def.prompt, CompletedOutputs(ts), obs.read(i));
      ExpandsIffDotted(file, ts, parallel, obs, i);
    }
  }

  lemma {:induction false} SmoothLaunchPass(file: TaskFile, ts: seq<TaskRun>, parallel: bool, n: nat, k: nat, log: string)
    requires ValidFile(file) && Inv(file, ts) && AllWentWell(ts, log)
    ensures AllWentWell(LaunchPass(ts, parallel, Smooth(n, k, log)), log)
  {
    var us := LaunchPass(ts, parallel, Smooth(n, k, log));
    forall i | 0 <= i < |us| ensures WentWell(us[i], log) {
      LaunchPointwise(ts, 0, CountRunning(ts), SnapshotOf(ts, parallel), Smooth(n, k, log), i);
      if us[i] != ts[i] {
        SmoothLaunch(file, ts, parallel, n, k, log, i);
      }
    }
  }

  lemma {:induction false} SmoothPoll(t: TaskRun, i: nat, n: nat, k: nat, log: string)
    requires WentWell(t, log)
    ensures WentWell(PollOne(t, i, Smooth(n, k, log)), log)
  {}

  lemma {:induction false} SmoothMark(t: TaskRun, doomed: set<string>, log: string)
    requires WentWell(t, log)
    ensures WentWell(MarkOne(t, doomed), log)
  {}

  lemma {:induction false} SmoothIteration(file: TaskFile, ts: seq<TaskRun>, parallel: bool, k: nat, log: string)
    requires ValidFile(file) && Inv(file, ts) && AllWentWell(ts, log)
    ensures AllWentWell(Iteration(ts, parallel, Smooth(|ts|, k, log)), log)
  {
    var obs := Smooth(|ts|, k, log);
    var swept := Swept(ts, obs);
    SweepKeeps(file, ts, obs);
    forall i | 0 <= i < |ts| ensures WentWell(swept[i], log) {
      SmoothMark(ts[i], DoomedNames(ts), log);
    }
    SmoothLaunchPass(file, swept, parallel, |ts|, k, log);
    var launched := LaunchPass(swept, parallel, obs);
    forall i | 0 <= i < |ts| ensures WentWell(PollOne(launched[i], i, obs), log) {
      SmoothPoll(launched[i], i, |ts|, k, log);
    }
  }

  lemma {:induction false} SmoothRun(file: TaskFile, ts: seq<TaskRun>, parallel: bool, script: seq<Observation>, log: string)
    requires ValidFile(file) && Inv(file, ts) && AllWentWell(ts, log) && AllSmooth(script, |ts|, log)
    ensures AllWentWell(Run(ts, parallel, script).tasks, log)
    ensures !Run(ts, parallel, script).Unreported?
    decreases |script|
  {
    if script != [] {
      assert IsSmooth(script[0], |ts|, log);
      var k :| script[0] == Smooth(|ts|, k, log);
      var next := Iteration(ts, parallel, script[0]);
      SmoothIteration(file, ts, parallel, k, log);
      IterationKeeps(file, ts, parallel, script[0]);
      if GoesOn(next, script[0]) {
        SmoothRun(file, next, parallel, script[1..], log);
      }
    }
  }

  /** Long enough for the run to end. */
  function SmoothLength(file: TaskFile): (len: nat)
    ensures len > 0
  {
    1 + 2 * TotalAttempts(InitialRuns(file))
  }

  /** A finished run in which all went well. */
  ghost predicate SmoothEnd(file: TaskFile, ts: seq<TaskRun>, log: string) {
    Inv(file, ts) && AllWentWell(ts, log) && NoneAborted(ts) && AllTerminal(ts) && !SomePanicked(ts)
  }

  lemma {:induction false} SmoothRunLeaves(file: TaskFile, parallel: bool, script: seq<Observation>)
    requires ValidFile(file) && Fair(script, |file.tasks|, 0, 1) && |script| == SmoothLength(file)
    ensures !Run(InitialRuns(file), parallel, script).Polling?
  {
    assert Patience(0, 1) == 1;
    FairRunEnds(file, parallel, script, 0, 1);
  }

  /** A run that ended was not aborted by a panic, and one that was shows it. */
  lemma {:induction false} PanicsShow(ts: seq<TaskRun>, parallel: bool, script: seq<Observation>)
    ensures var loop := Run(ts, parallel, script);
      (loop.Crashed? ==> SomePanicked(loop.tasks)) && (loop.Ended? ==> !SomePanicked(loop.tasks))
    decreases |script|
  {
    if script != [] && GoesOn(Iteration(ts, parallel, script[0]), script[0]) {
      PanicsShow(Iteration(ts, parallel, script[0]), parallel, script[1..]);
    }
  }

  /** A smooth run that the loop leaves ends well, or a bad log crashed it. */
  lemma {:induction false} SmoothRunEnds(
    file: TaskFile, ts: seq<TaskRun>, parallel: bool, script: seq<Observation>, log: string)
    requires ValidFile(file) && Inv(file, ts) && AllWentWell(ts, log) && NoneAborted(ts)
    requires NeverCancelled(script, |ts|) && AllSmooth(script, |ts|, log)
    requires !Run(ts, parallel, script).Polling?
    ensures Run(ts, parallel, script).Crashed? ==> Bad(log)
    ensures !Run(ts, parallel, script).Crashed? ==> SmoothEnd(file, Run(ts, parallel, script).tasks, log)
  {
    SmoothRun(file, ts, parallel, script, log);
    RunKeeps(file, ts, parallel, script);
    UncancelledNeverAborts(ts, parallel, script);
    PanicsShow(ts, parallel, script);
    if Run(ts, parallel, script).Ended? {
      EndedMeansTerminal(ts, parallel, script);
    }
  }

  lemma {:induction false} NothingWentWrongYet(file: TaskFile, log: string)
    ensures Inv(file, InitialRuns(file)) && AllWentWell(InitialRuns(file), log) && NoneAborted(InitialRuns(file))
  {
    InitialInv(file);
  }

  /** There is such a run of every valid file, whatever the logs hold. */
  lemma {:induction false} SmoothRunExists(file: TaskFile, parallel: bool, log: string) returns (script: seq<Observation>)
    requires ValidFile(file)
    ensures var loop := Run(InitialRuns(file), parallel, script);
      (loop.Crashed? ==> Bad(log)) && (!loop.Crashed? ==> SmoothEnd(file, loop.tasks, log))
  {
    script := SmoothScript(|file.tasks|, SmoothLength(file), log);
    SmoothIsFair(|file.tasks|, SmoothLength(file), log);
    SmoothRunLeaves(file, parallel, script);
    NothingWentWrongYet(file, log);
    SmoothRunEnds(file, InitialRuns(file), parallel, script, log);
  }

  /** In particular one in which every log is empty, which ends well. */
  lemma {:induction false} CleanRunExists(file: TaskFile, parallel: bool) returns (ts: seq<TaskRun>)
    requires ValidFile(file)
    ensures Reachable(file, parallel, ts) && SmoothEnd(file, ts, "")
  {
    var script := SmoothRunExists(file, parallel, "");
    ts := Run(InitialRuns(file), parallel, script).tasks;
  }

  lemma {:induction false} RootIsNotLocal(file: TaskFile, ts: seq<TaskRun>, j: nat, log: string)
    requires SmoothEnd(file, ts, log) && j < |ts| && SkipRoot(ts[j])
    ensures !Local(file.tasks[j])
  {
    assert RecordOk(file, ts, j) && WentWell(ts[j], log);
  }

  /** At a smooth end a task whose dependencies are all local was not skipped for one of them. */
  lemma {:induction false} LocalNotSkipped(file: TaskFile, ts: seq<TaskRun>, i: nat, log: string)
    requires ValidFile(file) && SmoothEnd(file, ts, log) && i < |ts| && DependsOnLocal(file, i)
    ensures !SkippedForDependency(ts[i])
  {
    if SkippedForDependency(ts[i]) {
      assert RecordOk(file, ts, i);
      SkippedDependsOnRoot(file, ts, i);
      var j :| 0 <= j < |ts| && SkipRoot(ts[j]) && DependsTransitively(GraphOf(file.tasks), ts[i].def.name, ts[j].def.name);
      assert RecordOk(file, ts, j);
      RootIsNotLocal(file, ts, j, log);
    }
  }

  lemma {:induction false} DoneInOneAttempt(t: TaskRun, done: set<string>, doomed: set<string>, log: string)
    requires Bookkeeping(t) && Placed(t, done, doomed) && WentWell(t, log) && Local(t.def) && !Panicked(t)
    requires Terminal(t.state) && !t.state.Aborted? && !SkippedForDependency(t)
    ensures t.state.Completed? && |t.attempts| == 1 && t.attempts[0].stdoutLog == Some(LogName(Slug(t.def.name), 1))
  {}

  /** When all goes well, every launchable task completes, in its first attempt. */
  lemma {:induction false} LaunchableCompletes(file: TaskFile, ts: seq<TaskRun>, i: nat)
    requires ValidFile(file) && SmoothEnd(file, ts, "") && i < |ts| && Launchable(file, i)
    ensures ts[i].state.Completed? && |ts[i].attempts| == 1
    ensures ts[i].attempts[0].stdoutLog == Some(LogName(Slug(file.tasks[i].name), 1))
  {
    LocalNotSkipped(file, ts, i, "");
    assert RecordOk(file, ts, i) && WentWell(ts[i], "") && !Panicked(ts[i]);
    DoneInOneAttempt(ts[i], CompletedNames(ts), DoomedNames(ts), "");
  }

  /** A task of a valid file completes in some run iff it is launchable. */
  lemma {:induction false} CanCompleteIff(file: TaskFile, parallel: bool, i: nat)
    requires ValidFile(file) && i < |file.tasks|
    ensures (exists ts :: Reachable(file, parallel, ts) && CompletesIn(ts, i)) <==> Launchable(file, i)
  {
    if Launchable(file, i) {
      var ts := CleanRunExists(file, parallel);
      LaunchableCompletes(file, ts, i);
      assert CompletesIn(ts, i);
    }
    forall ts | Reachable(file, parallel, ts) && CompletesIn(ts, i) ensures Launchable(file, i) {
      ReachableKeepsInv(file, parallel, ts);
      assert RecordOk(file, ts, i);
      StartedIsLaunchable(file, ts, i);
    }
  }

  predicate CompletesIn(ts: seq<TaskRun>, i: nat) {
    i < |ts| && ts[i].state.Completed?
  }

  // ---------------------------------------------------------------- files of independent tasks

  /** Nothing holds the task back: no peer, no dependency, nothing to expand. */
  predicate Plain(def: TaskDef) {
    def.peer.None? && def.dependsOn == [] && def.prompt == ""
  }

  ghost predicate AllPlain(file: TaskFile) {
    forall i :: 0 <= i < |file.tasks| ==> Plain(file.tasks[i])
  }

  lemma {:induction false} PlainGraph(tasks: seq<TaskDef>)
    requires forall i :: 0 <= i < |tasks| ==> tasks[i].dependsOn == []
    ensures forall n :: n in GraphOf(tasks) ==> GraphOf(tasks)[n] == []
  {
    if tasks != [] {
      PlainGraph(tasks[..|tasks| - 1]);
    }
  }

  lemma {:induction false} PlainFileIsValid(file: TaskFile)
    requires AllPlain(file) && DistinctNames(file.tasks)
    ensures ValidFile(file)
  {
    var g := GraphOf(file.tasks);
    PlainGraph(file.tasks);
    RankedIsAcyclic(g, map n | n in g :: 0);
    assert References(Parse("")) == [];
    assert forall i :: 0 <= i < |file.tasks| ==> PromptOk(NamesOf(file.tasks), file.tasks[i]);
  }

  /** In parallel mode a pass launches every ready task, unless the flag is seen or a prompt panics. */
  lemma {:induction false} ParallelLaunchesReady(
    ts: seq<TaskRun>, i: nat, running: nat, snap: Snapshot, obs: Observation, j: nat)
    requires snap.parallel && Uncancelled(obs, |ts|) && i <= j < |ts| && Ready(ts[j], j, snap, obs)
    requires forall k :: i <= k < |ts| && Ready(ts[k], k, snap, obs) ==> !Panicked(LaunchOne(ts[k], k, snap.outputs, obs))
    ensures LaunchFrom(ts, i, running, snap, obs)[j] == LaunchOne(ts[j], j, snap.outputs, obs)
    decreases |ts| - i
  {
    if !Ready(ts[i], i, snap, obs) {
      ParallelLaunchesReady(ts, i + 1, running, snap, obs, j);
    } else {
      var t := LaunchOne(ts[i], i, snap.outputs, obs);
      var running' := if t.state.Running? then running + 1 else running;
      if i == j {
        LaunchPointwise(ts[i := t], i + 1, running', snap, obs, j);
      } else {
        ParallelLaunchesReady(ts[i := t], i + 1, running', snap, obs, j);
      }
    }
  }

  lemma {:induction false} PlainLaunch(t: TaskRun, i: nat, snap: Snapshot, obs: Observation)
    requires Plain(t.def) && t.state.Pending? && t.nextRetryAt.None? && t.attemptsStarted == 0 && obs.launch(i, "").Launched?
    ensures Ready(t, i, snap, obs)
    ensures var u := LaunchOne(t, i, snap.outputs, obs);
      u.state.Running? && u.stdoutLog == Some(LogName(Slug(t.def.name), 1))
  {
    assert LaunchPrompt("", snap.outputs, obs.read(i)) == Ok("");
  }

  lemma {:induction false} PlainTasksRun(file: TaskFile, obs: Observation, j: nat)
    requires j < |file.tasks| && AllPlain(file)
    requires Uncancelled(obs, |file.tasks|) && forall i: nat :: obs.launch(i, "").Launched?
    ensures var us := LaunchPass(InitialRuns(file), true, obs);
      us[j].state.Running? && us[j].stdoutLog == Some(LogName(Slug(file.tasks[j].name), 1))
  {
    var ts := InitialRuns(file);
    var snap := SnapshotOf(ts, true);
    forall k | 0 <= k < |ts| ensures Ready(ts[k], k, snap, obs) && LaunchOne(ts[k], k, snap.outputs, obs).state.Running? {
      PlainLaunch(ts[k], k, snap, obs);
    }
    PlainLaunch(ts[j], j, snap, obs);
    ParallelLaunchesReady(ts, 0, CountRunning(ts), snap, obs, j);
  }

  lemma {:induction false} StillRunningStays(ts: seq<TaskRun>, obs: Observation, j: nat)
    requires j < |ts| && obs.wait(j).StillRunning?
    ensures Polled(ts, obs)[j] == ts[j]
  {}

  lemma {:induction false} NothingToSweep(file: TaskFile, obs: Observation)
    requires Uncancelled(obs, |file.tasks|)
    ensures Swept(InitialRuns(file), obs) == InitialRuns(file)
  {
    var ts := InitialRuns(file);
    forall i | 0 <= i < |ts| ensures MarkOne(ts[i], DoomedNames(ts)) == ts[i] {
      assert DoomedNames(ts) == {};
      NoneFailed(ts[i].def.dependsOn);
    }
  }

  lemma {:induction false} NoneFailed(deps: seq<string>)
    ensures FailedDeps(deps, {}) == []
  {
    if deps != [] {
      NoneFailed(deps[1..]);
    }
  }

  /** In parallel mode the first iteration launches every task of such a file. */
  lemma {:induction false} PlainTasksStay(file: TaskFile, obs: Observation, j: nat)
    requires j < |file.tasks| && AllPlain(file)
    requires Uncancelled(obs, |file.tasks|) && forall i: nat :: obs.launch(i, "").Launched? && obs.wait(i).StillRunning?
    ensures var ts := Iteration(InitialRuns(file), true, obs);
      |ts| == |file.tasks| && ts[j].state.Running? && ts[j].stdoutLog == Some(LogName(Slug(file.tasks[j].name), 1))
  {
    NothingToSweep(file, obs);
    PlainTasksRun(file, obs, j);
    StillRunningStays(LaunchPass(InitialRuns(file), true, obs), obs, j);
  }

  /** A launch succeeds, and its process lives on. */
  function Busy(n: nat): Observation {
    Smooth(n, 0, "").(wait := _ => StillRunning)
  }
}
